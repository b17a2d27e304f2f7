/**
 * Readers for the OFX request parts the builder writes: the SONRQ sign-on
 * block, the SIGNUP/ACCTINFO transaction envelope, the ACCTINFORQ body and
 * the `<OFX>` document body.  White space between elements is skipped;
 * element values run up to the next `<`.
 */
module OfxReader {
  import opened Wrappers
  import opened Markup

  /** What a sign-on block says, field by field. */
  datatype SignOn = SignOn(dtClient: string, userId: string, password: string,
                           language: string, appId: string, appVer: string)

  /** What a transaction envelope says: its id, its cookie and the request it wraps. */
  datatype Transaction = Transaction(trnUid: string, cookie: string, body: string)

  /** Reads a `SIGNONMSGSRQV1` block whose SONRQ holds exactly DTCLIENT, USERID,
      USERPASS, LANGUAGE, APPID and APPVER in this order; gives the fields and
      the text after the block. */
  function ReadSignOn(s: string): (r: Option<(SignOn, string)>)
    ensures r.Some? ==> |r.value.1| < |s|
    ensures r.Some? ==> var f := r.value.0;
      NoMarkup(f.dtClient) && NoMarkup(f.userId) && NoMarkup(f.password)
      && NoMarkup(f.language) && NoMarkup(f.appId) && NoMarkup(f.appVer)
  {
    var s1 :- ReadOpen(s, "SIGNONMSGSRQV1");
    var s2 :- ReadOpen(s1, "SONRQ");
    var date :- ReadElement(s2, "DTCLIENT");
    var user :- ReadElement(date.1, "USERID");
    var pass :- ReadElement(user.1, "USERPASS");
    var lang :- ReadElement(pass.1, "LANGUAGE");
    var app :- ReadElement(lang.1, "APPID");
    var ver :- ReadElement(app.1, "APPVER");
    var s3 :- ReadClose(ver.1, "SONRQ");
    var s4 :- ReadClose(s3, "SIGNONMSGSRQV1");
    Some((SignOn(date.0, user.0, pass.0, lang.0, app.0, ver.0), s4))
  }

  /** Reads a whole `SIGNUPMSGSRQV1` / `ACCTINFOTRNRQ` envelope that opens with
      one TRNUID and one CLTCOOKIE element; everything between the cookie and
      the closing tags is the wrapped request. */
  function ReadEnvelope(s: string): (r: Option<Transaction>)
    ensures r.Some? ==> NoMarkup(r.value.trnUid) && NoMarkup(r.value.cookie)
    ensures r.Some? ==> |r.value.body| < |s|
  {
    var s1 :- ReadOpen(s, "SIGNUPMSGSRQV1");
    var s2 :- ReadOpen(s1, "ACCTINFOTRNRQ");
    var id :- ReadElement(s2, "TRNUID");
    var cookie :- ReadElement(id.1, "CLTCOOKIE");
    var s3 :- ReadCloseAtEnd(cookie.1, "SIGNUPMSGSRQV1");
    var body :- ReadCloseAtEnd(s3, "ACCTINFOTRNRQ");
    Some(Transaction(id.0, cookie.0, body))
  }

  /** Reads a whole ACCTINFORQ request and gives its DTACCTUP value. */
  function ReadAccountInfo(s: string): (r: Option<string>)
    ensures r.Some? ==> NoMarkup(r.value) && |r.value| < |s|
  {
    var s1 :- ReadOpen(s, "ACCTINFORQ");
    var since :- ReadElement(s1, "DTACCTUP");
    var s2 :- ReadClose(since.1, "ACCTINFORQ");
    if SkipSpace(s2) == [] then Some(since.0) else None
  }

  /** Reads an `<OFX>` document body: a sign-on block followed by one envelope. */
  function ReadOfx(s: string): (r: Option<(SignOn, Transaction)>)
    ensures r.Some? ==> NoMarkup(r.value.1.cookie)
  {
    var s1 :- ReadOpen(s, "OFX");
    var signOn :- ReadSignOn(s1);
    var inner :- ReadCloseAtEnd(signOn.1, "OFX");
    var trn :- ReadEnvelope(inner);
    Some((signOn.0, trn))
  }
}
