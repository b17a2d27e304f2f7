/**
 * What the request builder's output means: each part, read back with the
 * readers of `OfxReader`, gives exactly the values it was built from, in
 * the order and with the literals the builder uses.
 */
module RequestProperties {
  import opened Wrappers
  import opened Decimal
  import opened Sprintf
  import opened Markup
  import opened OfxReader
  import opened OfxRequests

  /** The sign-on block, spelt out: the five values between the template's literal parts. */
  lemma SignOnLayout(b: Banker, date: string)
    ensures b.SignOnMessage(date)
      == SignOnPieces[0] + date + (SignOnPieces[1] + b.user + (SignOnPieces[2] + b.password
         + (SignOnPieces[3] + b.app + (SignOnPieces[4] + b.appVersion + SignOnPieces[5]))))
  {
    var p := SignOnPieces;
    var a := [date, b.user, b.password, b.app, b.appVersion];
    assert Interleave(p[5..], a[5..]) == p[5];
    assert Interleave(p[4..], a[4..]) == p[4] + a[4] + Interleave(p[5..], a[5..]);
    assert Interleave(p[3..], a[3..]) == p[3] + a[3] + Interleave(p[4..], a[4..]);
    assert Interleave(p[2..], a[2..]) == p[2] + a[2] + Interleave(p[3..], a[3..]);
    assert Interleave(p[1..], a[1..]) == p[1] + a[1] + Interleave(p[2..], a[2..]);
    assert Interleave(p, a) == p[0] + a[0] + Interleave(p[1..], a[1..]);
  }

  // The text after each value of the sign-on block, as the template lays
  // it out, is the text after that value's closing tag as the reader sees it.

  lemma SignOnTail5(rest: string)
    ensures SignOnPieces[5] + rest
         == CloseTag("APPVER") + (Indent(16) + CloseTag("SONRQ") + (Indent(12) + CloseTag("SIGNONMSGSRQV1") + rest))
  {
  }

  lemma SignOnTail4(ver: string, a5: string, r8: string)
    requires a5 == CloseTag("APPVER") + r8
    ensures SignOnPieces[4] + ver + a5
         == CloseTag("APPID") + (Indent(20) + OpenTag("APPVER") + ver + CloseTag("APPVER") + r8)
  {
  }

  lemma SignOnTail3(app: string, a4: string, r7: string)
    requires a4 == CloseTag("APPID") + r7
    ensures SignOnPieces[3] + app + a4
         == CloseTag("USERPASS") + (Indent(20) + OpenTag("LANGUAGE") + "ENG" + CloseTag("LANGUAGE")
            + (Indent(20) + OpenTag("APPID") + app + CloseTag("APPID") + r7))
  {
  }

  lemma SignOnTail(k: nat, closing: string, tag: string, v: string, a: string, r: string)
    requires 1 <= k <= 2
    requires SignOnPieces[k] == closing + Indent(20) + OpenTag(tag)
    requires a == CloseTag(tag) + r
    ensures SignOnPieces[k] + v + a == closing + (Indent(20) + OpenTag(tag) + v + CloseTag(tag) + r)
  {
  }

  lemma SignOnHead(date: string, a1: string, r3: string)
    requires a1 == CloseTag("DTCLIENT") + r3
    ensures SignOnPieces[0] + date + a1
         == [] + OpenTag("SIGNONMSGSRQV1")
            + (Indent(16) + OpenTag("SONRQ") + (Indent(20) + OpenTag("DTCLIENT") + date + CloseTag("DTCLIENT") + r3))
  {
  }

  lemma AppendAssoc(x: string, y: string, r: string)
    ensures x + y + r == x + (y + r)
  {
  }

  lemma SignOnWithRest(b: Banker, date: string, rest: string)
    ensures b.SignOnMessage(date) + rest
         == SignOnPieces[0] + date + (SignOnPieces[1] + b.user + (SignOnPieces[2] + b.password
            + (SignOnPieces[3] + b.app + (SignOnPieces[4] + b.appVersion + (SignOnPieces[5] + rest)))))
  {
    var p := SignOnPieces;
    SignOnLayout(b, date);
    var l4 := p[4] + b.appVersion + p[5];
    var l3 := p[3] + b.app + l4;
    var l2 := p[2] + b.password + l3;
    var l1 := p[1] + b.user + l2;
    AppendAssoc(p[4] + b.appVersion, p[5], rest);
    AppendAssoc(p[3] + b.app, l4, rest);
    AppendAssoc(p[2] + b.password, l3, rest);
    AppendAssoc(p[1] + b.user, l2, rest);
    AppendAssoc(p[0] + date, l1, rest);
  }

  /** The text a reader of the sign-on block `f` followed by `rest` has left
      after its `k`-th step (after `<SIGNONMSGSRQV1>`, after `<SONRQ>`, after
      each element, after each closing tag). */
  function SignOnRest(k: nat, f: SignOn, rest: string): string
    requires 1 <= k <= 9
    decreases 9 - k
  {
    if k == 1 then Indent(16) + OpenTag("SONRQ") + SignOnRest(2, f, rest)
    else if k == 2 then Indent(20) + OpenTag("DTCLIENT") + f.dtClient + CloseTag("DTCLIENT") + SignOnRest(3, f, rest)
    else if k == 3 then Indent(20) + OpenTag("USERID") + f.userId + CloseTag("USERID") + SignOnRest(4, f, rest)
    else if k == 4 then Indent(20) + OpenTag("USERPASS") + f.password + CloseTag("USERPASS") + SignOnRest(5, f, rest)
    else if k == 5 then Indent(20) + OpenTag("LANGUAGE") + f.language + CloseTag("LANGUAGE") + SignOnRest(6, f, rest)
    else if k == 6 then Indent(20) + OpenTag("APPID") + f.appId + CloseTag("APPID") + SignOnRest(7, f, rest)
    else if k == 7 then Indent(20) + OpenTag("APPVER") + f.appVer + CloseTag("APPVER") + SignOnRest(8, f, rest)
    else if k == 8 then Indent(16) + CloseTag("SONRQ") + SignOnRest(9, f, rest)
    else Indent(12) + CloseTag("SIGNONMSGSRQV1") + rest
  }

  /** `ReadSignOn` succeeds when each of its steps does; `r1` to `r10` are the texts left after them. */
  lemma ReadSignOnSteps(text: string, f: SignOn, r1: string, r2: string, r3: string, r4: string, r5: string,
                        r6: string, r7: string, r8: string, r9: string, r10: string)
    requires ReadOpen(text, "SIGNONMSGSRQV1") == Some(r1)
    requires ReadOpen(r1, "SONRQ") == Some(r2)
    requires ReadElement(r2, "DTCLIENT") == Some((f.dtClient, r3))
    requires ReadElement(r3, "USERID") == Some((f.userId, r4))
    requires ReadElement(r4, "USERPASS") == Some((f.password, r5))
    requires ReadElement(r5, "LANGUAGE") == Some((f.language, r6))
    requires ReadElement(r6, "APPID") == Some((f.appId, r7))
    requires ReadElement(r7, "APPVER") == Some((f.appVer, r8))
    requires ReadClose(r8, "SONRQ") == Some(r9)
    requires ReadClose(r9, "SIGNONMSGSRQV1") == Some(r10)
    ensures ReadSignOn(text) == Some((f, r10))
  {
  }

  /** Each step of `ReadSignOn` over a sign-on block leaves the next rest. */
  lemma SignOnSteps(f: SignOn, rest: string)
    requires NoMarkup(f.dtClient) && NoMarkup(f.userId) && NoMarkup(f.password)
    requires NoMarkup(f.language) && NoMarkup(f.appId) && NoMarkup(f.appVer)
    ensures ReadSignOn([] + OpenTag("SIGNONMSGSRQV1") + SignOnRest(1, f, rest)) == Some((f, rest))
  {
    var r1, r2, r3 := SignOnRest(1, f, rest), SignOnRest(2, f, rest), SignOnRest(3, f, rest);
    var r4, r5, r6 := SignOnRest(4, f, rest), SignOnRest(5, f, rest), SignOnRest(6, f, rest);
    var r7, r8, r9 := SignOnRest(7, f, rest), SignOnRest(8, f, rest), SignOnRest(9, f, rest);
    ReadOpenOver([], "SIGNONMSGSRQV1", r1);
    ReadOpenOver(Indent(16), "SONRQ", r2);
    ReadElementOver(Indent(20), "DTCLIENT", f.dtClient, r3);
    ReadElementOver(Indent(20), "USERID", f.userId, r4);
    ReadElementOver(Indent(20), "USERPASS", f.password, r5);
    ReadElementOver(Indent(20), "LANGUAGE", f.language, r6);
    ReadElementOver(Indent(20), "APPID", f.appId, r7);
    ReadElementOver(Indent(20), "APPVER", f.appVer, r8);
    ReadCloseOver(Indent(16), "SONRQ", r9);
    ReadCloseOver(Indent(12), "SIGNONMSGSRQV1", rest);
    ReadSignOnSteps([] + OpenTag("SIGNONMSGSRQV1") + r1, f, r1, r2, r3, r4, r5, r6, r7, r8, r9, rest);
  }

  /** The sign-on block reads back as the client date, the user, the password,
      the language ENG, the application id and version, in this order, and
      nothing else (no client UID); the text after it is left untouched. */
  lemma SignOnRoundTrip(b: Banker, date: string, rest: string)
    requires NoMarkup(date) && NoMarkup(b.user) && NoMarkup(b.password)
    requires NoMarkup(b.app) && NoMarkup(b.appVersion)
    ensures ReadSignOn(b.SignOnMessage(date) + rest)
         == Some((SignOn(date, b.user, b.password, "ENG", b.app, b.appVersion), rest))
  {
    var f := SignOn(date, b.user, b.password, "ENG", b.app, b.appVersion);
    var p := SignOnPieces;
    var a5 := p[5] + rest;
    var a4 := p[4] + f.appVer + a5;
    var a3 := p[3] + f.appId + a4;
    var a2 := p[2] + f.password + a3;
    var a1 := p[1] + f.userId + a2;
    SignOnTail5(rest);
    SignOnTail4(f.appVer, a5, SignOnRest(8, f, rest));
    SignOnTail3(f.appId, a4, SignOnRest(7, f, rest));
    SignOnTail(2, CloseTag("USERID"), "USERPASS", f.password, a3, SignOnRest(5, f, rest));
    SignOnTail(1, CloseTag("DTCLIENT"), "USERID", f.userId, a2, SignOnRest(4, f, rest));
    SignOnHead(date, a1, SignOnRest(3, f, rest));
    SignOnWithRest(b, date, rest);
    assert NoMarkup("ENG");
    SignOnSteps(f, rest);
  }

  // -------------------------------------------------------------------
  // The transaction envelope

  /** The text a reader of an envelope has left after its `k`-th step
      (after `<SIGNUPMSGSRQV1>`, after `<ACCTINFOTRNRQ>`, after TRNUID, after CLTCOOKIE). */
  function EnvelopeRest(k: nat, trnUid: string, cookie: string, body: string): string
    requires 1 <= k <= 4
    decreases 4 - k
  {
    if k == 1 then Indent(24) + OpenTag("ACCTINFOTRNRQ") + EnvelopeRest(2, trnUid, cookie, body)
    else if k == 2 then Indent(28) + OpenTag("TRNUID") + trnUid + CloseTag("TRNUID") + EnvelopeRest(3, trnUid, cookie, body)
    else if k == 3 then Indent(28) + OpenTag("CLTCOOKIE") + cookie + CloseTag("CLTCOOKIE") + EnvelopeRest(4, trnUid, cookie, body)
    else body + Indent(24) + CloseTag("ACCTINFOTRNRQ") + Indent(20) + CloseTag("SIGNUPMSGSRQV1") + []
  }

  lemma EnvelopeSpelt(trnUid: string, cookie: string, body: string)
    ensures EnvelopeText(trnUid, cookie, body)
         == EnvelopeOpen + trnUid + (EnvelopeMiddle + cookie + (CloseTag("CLTCOOKIE") + body + EnvelopeClose))
  {
    var p := EnvelopePieces(body);
    var a := [trnUid, cookie];
    assert Interleave(p[2..], a[2..]) == p[2];
    assert Interleave(p[1..], a[1..]) == p[1] + a[1] + p[2];
  }

  lemma EnvelopeTail(trnUid: string, cookie: string, body: string)
    ensures CloseTag("CLTCOOKIE") + body + EnvelopeClose == CloseTag("CLTCOOKIE") + EnvelopeRest(4, trnUid, cookie, body)
  {
  }

  lemma Regroup5(a: string, b: string, c: string, d: string, e: string, r: string)
    ensures a + b + c + d + (e + r) == a + (b + c + d + e + r)
  {
  }

  lemma EnvelopeMiddlePart(trnUid: string, cookie: string, body: string, y: string)
    requires y == CloseTag("CLTCOOKIE") + EnvelopeRest(4, trnUid, cookie, body)
    ensures EnvelopeMiddle + cookie + y == CloseTag("TRNUID") + EnvelopeRest(3, trnUid, cookie, body)
  {
    Regroup5(CloseTag("TRNUID"), Indent(28), OpenTag("CLTCOOKIE"), cookie, CloseTag("CLTCOOKIE"),
             EnvelopeRest(4, trnUid, cookie, body));
  }

  lemma Regroup6(a: string, b: string, c: string, d: string, e: string, t: string, x: string)
    ensures a + b + c + d + e + t + x == [] + a + (b + c + (d + e + t + x))
  {
  }

  lemma EnvelopeHead(trnUid: string, cookie: string, body: string, x: string)
    requires x == CloseTag("TRNUID") + EnvelopeRest(3, trnUid, cookie, body)
    ensures EnvelopeOpen + trnUid + x == [] + OpenTag("SIGNUPMSGSRQV1") + EnvelopeRest(1, trnUid, cookie, body)
  {
    Regroup6(OpenTag("SIGNUPMSGSRQV1"), Indent(24), OpenTag("ACCTINFOTRNRQ"), Indent(28), OpenTag("TRNUID"), trnUid, x);
  }

  /** The envelope text, as its reader walks through it. */
  lemma EnvelopeLayout(trnUid: string, cookie: string, body: string)
    ensures EnvelopeText(trnUid, cookie, body) == [] + OpenTag("SIGNUPMSGSRQV1") + EnvelopeRest(1, trnUid, cookie, body)
  {
    EnvelopeSpelt(trnUid, cookie, body);
    var y := CloseTag("CLTCOOKIE") + body + EnvelopeClose;
    EnvelopeTail(trnUid, cookie, body);
    var x := EnvelopeMiddle + cookie + y;
    EnvelopeMiddlePart(trnUid, cookie, body, y);
    EnvelopeHead(trnUid, cookie, body, x);
  }

  /** `ReadEnvelope` succeeds when each of its steps does; `r1` to `r5` are the texts left after them. */
  lemma ReadEnvelopeSteps(text: string, t: Transaction, r1: string, r2: string, r3: string, r4: string, r5: string)
    requires ReadOpen(text, "SIGNUPMSGSRQV1") == Some(r1)
    requires ReadOpen(r1, "ACCTINFOTRNRQ") == Some(r2)
    requires ReadElement(r2, "TRNUID") == Some((t.trnUid, r3))
    requires ReadElement(r3, "CLTCOOKIE") == Some((t.cookie, r4))
    requires ReadCloseAtEnd(r4, "SIGNUPMSGSRQV1") == Some(r5)
    requires ReadCloseAtEnd(r5, "ACCTINFOTRNRQ") == Some(t.body)
    ensures ReadEnvelope(text) == Some(t)
  {
  }

  lemma EnvelopeClosing(body: string)
    requires body == [] || !IsSpace(body[|body| - 1])
    ensures ReadCloseAtEnd(body + Indent(24) + CloseTag("ACCTINFOTRNRQ") + Indent(20) + CloseTag("SIGNUPMSGSRQV1") + [],
                           "SIGNUPMSGSRQV1")
         == Some(body + Indent(24) + CloseTag("ACCTINFOTRNRQ"))
    ensures ReadCloseAtEnd(body + Indent(24) + CloseTag("ACCTINFOTRNRQ"), "ACCTINFOTRNRQ") == Some(body)
  {
    var x := body + Indent(24) + CloseTag("ACCTINFOTRNRQ");
    ReadCloseAtEndOver(x, Indent(20), "SIGNUPMSGSRQV1", []);
    assert x == body + Indent(24) + CloseTag("ACCTINFOTRNRQ") + [];
    ReadCloseAtEndOver(body, Indent(24), "ACCTINFOTRNRQ", []);
  }

  lemma EnvelopeSteps(trnUid: string, cookie: string, body: string)
    requires NoMarkup(trnUid) && NoMarkup(cookie)
    requires body == [] || !IsSpace(body[|body| - 1])
    ensures ReadEnvelope([] + OpenTag("SIGNUPMSGSRQV1") + EnvelopeRest(1, trnUid, cookie, body))
         == Some(Transaction(trnUid, cookie, body))
  {
    var r1, r2 := EnvelopeRest(1, trnUid, cookie, body), EnvelopeRest(2, trnUid, cookie, body);
    var r3, r4 := EnvelopeRest(3, trnUid, cookie, body), EnvelopeRest(4, trnUid, cookie, body);
    ReadOpenOver([], "SIGNUPMSGSRQV1", r1);
    ReadOpenOver(Indent(24), "ACCTINFOTRNRQ", r2);
    ReadElementOver(Indent(28), "TRNUID", trnUid, r3);
    ReadElementOver(Indent(28), "CLTCOOKIE", cookie, r4);
    EnvelopeClosing(body);
    var x := body + Indent(24) + CloseTag("ACCTINFOTRNRQ");
    ReadEnvelopeSteps([] + OpenTag("SIGNUPMSGSRQV1") + r1, Transaction(trnUid, cookie, body), r1, r2, r3, r4, x);
  }

  /** The envelope reads back as its transaction id, its cookie and the wrapped
      request: one TRNUID and one CLTCOOKIE element, then the body verbatim,
      inside ACCTINFOTRNRQ inside SIGNUPMSGSRQV1. */
  lemma EnvelopeRoundTrip(trnUid: string, cookie: string, body: string)
    requires NoMarkup(trnUid) && NoMarkup(cookie)
    requires body == [] || !IsSpace(body[|body| - 1])
    ensures ReadEnvelope(EnvelopeText(trnUid, cookie, body)) == Some(Transaction(trnUid, cookie, body))
  {
    EnvelopeLayout(trnUid, cookie, body);
    EnvelopeSteps(trnUid, cookie, body);
  }

  /** Two envelopes whose cookies come from different counter values differ,
      whatever their transaction ids, even around the same body: the CLTCOOKIE
      values read back from them differ. */
  lemma EnvelopesDifferByCookie(trnUid1: string, trnUid2: string, body: string, m: nat, n: nat)
    requires m != n
    requires NoMarkup(trnUid1) && NoMarkup(trnUid2)
    requires body == [] || !IsSpace(body[|body| - 1])
    ensures EnvelopeText(trnUid1, DecimalString(m), body) != EnvelopeText(trnUid2, DecimalString(n), body)
    ensures var t1 := ReadEnvelope(EnvelopeText(trnUid1, DecimalString(m), body));
            var t2 := ReadEnvelope(EnvelopeText(trnUid2, DecimalString(n), body));
            t1.Some? && t2.Some? && t1.value.cookie != t2.value.cookie
  {
    DigitsPlain(DecimalString(m));
    DigitsPlain(DecimalString(n));
    EnvelopeRoundTrip(trnUid1, DecimalString(m), body);
    EnvelopeRoundTrip(trnUid2, DecimalString(n), body);
    DecimalInjective(m, n);
  }

  lemma DigitsPlain(s: string)
    requires AllDigits(s)
    ensures NoMarkup(s) && NoCR(s)
  {
    assert forall i :: 0 <= i < |s| ==> s[i] != '<' && s[i] != '\r';
  }

  /** The inner body of the account-list request asks for accounts updated since 1970-01-01. */
  lemma AccountInfoReads()
    ensures ReadAccountInfo(AccountInfoRequest) == Some(EpochSentinel)
  {
    var r2 := Indent(28) + CloseTag("ACCTINFORQ") + [];
    var r1 := Indent(32) + OpenTag("DTACCTUP") + EpochSentinel + CloseTag("DTACCTUP") + r2;
    assert AccountInfoRequest == [] + OpenTag("ACCTINFORQ") + r1;
    ReadOpenOver([], "ACCTINFORQ", r1);
    assert NoMarkup(EpochSentinel);
    ReadElementOver(Indent(32), "DTACCTUP", EpochSentinel, r2);
    ReadCloseOver(Indent(28), "ACCTINFORQ", []);
  }

  /** The account-list transaction carries the token and the cookie, and the
      request it wraps is the ACCTINFORQ with the 1970-01-01 sentinel. */
  lemma AccountsRequestReads(trnUid: string, cookie: string)
    requires NoMarkup(trnUid) && NoMarkup(cookie)
    ensures ReadEnvelope(EnvelopeText(trnUid, cookie, AccountInfoRequest))
         == Some(Transaction(trnUid, cookie, AccountInfoRequest))
    ensures ReadAccountInfo(AccountInfoRequest) == Some(EpochSentinel)
  {
    assert AccountInfoRequest[|AccountInfoRequest| - 1] == '>';
    EnvelopeRoundTrip(trnUid, cookie, AccountInfoRequest);
    AccountInfoReads();
  }

  /** The envelope's inner body is part of the format string: what comes
      out after the cookie is the body formatted with no arguments left. */
  lemma EnvelopeFormatsBody(trnUid: string, cookie: string, body: string)
    ensures Format(Template(EnvelopePieces(body)), [trnUid, cookie])
         == Prepend(EnvelopeOpen + trnUid + EnvelopeMiddle + cookie + CloseTag("CLTCOOKIE"),
                    Format(body + EnvelopeClose, []))
  {
    EnvelopePartsPlain();
    assert CloseTag("CLTCOOKIE") + body + EnvelopeClose == CloseTag("CLTCOOKIE") + (body + EnvelopeClose);
    FormatTwoHolesThenMore(EnvelopeOpen, EnvelopeMiddle, CloseTag("CLTCOOKIE"), body + EnvelopeClose, trnUid, cookie);
  }

  /** The envelope text with the body spelt out after the cookie's closing tag. */
  lemma EnvelopeTextSplit(trnUid: string, cookie: string, body: string)
    ensures EnvelopeText(trnUid, cookie, body)
         == EnvelopeOpen + trnUid + EnvelopeMiddle + cookie + CloseTag("CLTCOOKIE") + (body + EnvelopeClose)
  {
    EnvelopeSpelt(trnUid, cookie, body);
    var c := CloseTag("CLTCOOKIE");
    assert EnvelopeOpen + trnUid + (EnvelopeMiddle + cookie + (c + body + EnvelopeClose))
        == EnvelopeOpen + trnUid + EnvelopeMiddle + cookie + c + (body + EnvelopeClose);
  }

  /** A `%%` in the envelope's body comes out as one `%`: the text before it
      is kept, and formatting goes on with the text after it. */
  lemma EnvelopeBodyEscapedPercent(trnUid: string, cookie: string, lit: string, rest: string)
    requires NoPercent(lit)
    ensures Format(Template(EnvelopePieces(lit + "%%" + rest)), [trnUid, cookie])
         == Prepend(EnvelopeOpen + trnUid + EnvelopeMiddle + cookie + CloseTag("CLTCOOKIE") + lit + "%",
                    Format(rest + EnvelopeClose, []))
  {
    var head := EnvelopeOpen + trnUid + EnvelopeMiddle + cookie + CloseTag("CLTCOOKIE");
    var after := rest + EnvelopeClose;
    EnvelopeFormatsBody(trnUid, cookie, lit + "%%" + rest);
    Regroup3(lit, "%%", rest, EnvelopeClose);
    FormatLiteralEscape(lit, after, []);
    PrependTwice(head, lit + "%", Format(after, []));
    AppendAssoc(head, lit, "%");
  }

  lemma Regroup3(a: string, b: string, c: string, d: string)
    ensures a + b + c + d == a + (b + (c + d))
  {
  }

  /** A body whose only `%` sign is one `%%` gives the envelope around that
      body with the `%%` replaced by a single `%`. */
  lemma EnvelopeBodyOnePercent(trnUid: string, cookie: string, lit: string, rest: string)
    requires NoPercent(lit) && NoPercent(rest)
    ensures Format(Template(EnvelopePieces(lit + "%%" + rest)), [trnUid, cookie])
         == Ok(EnvelopeText(trnUid, cookie, lit + "%" + rest))
  {
    var head := EnvelopeOpen + trnUid + EnvelopeMiddle + cookie + CloseTag("CLTCOOKIE");
    EnvelopeBodyEscapedPercent(trnUid, cookie, lit, rest);
    EnvelopePartsPlain();
    NoPercentConcat(rest, EnvelopeClose);
    EnvelopeTextSplit(trnUid, cookie, lit + "%" + rest);
    Regroup4(head, lit, "%", rest, EnvelopeClose);
  }

  lemma Regroup4(h: string, a: string, b: string, c: string, d: string)
    ensures h + a + b + (c + d) == h + (a + b + c + d)
  {
  }

  /** A `%s` in the envelope's body, after text without `%`, asks for a third
      argument, which `generateMessage` never supplies, so the whole message fails. */
  lemma EnvelopeBodyHole(trnUid: string, cookie: string, lit: string, rest: string)
    requires NoPercent(lit)
    ensures Format(Template(EnvelopePieces(lit + "%s" + rest)), [trnUid, cookie]) == Err(TooFewArguments)
  {
    EnvelopeFormatsBody(trnUid, cookie, lit + "%s" + rest);
    assert lit + "%s" + rest + EnvelopeClose == lit + "%s" + (rest + EnvelopeClose);
    FormatTooFew(lit, rest + EnvelopeClose);
  }


  // -------------------------------------------------------------------
  // The header block

  lemma FixedFieldsPlain()
    ensures PlainField(HeaderField("OFXHEADER", "200")) && PlainField(HeaderField("DATA", "OFXSGML"))
    ensures PlainField(HeaderField("ENCODING", "USASCII"))
  {
  }

  lemma MoreFixedFieldsPlain()
    ensures PlainField(HeaderField("CHARSET", "1252")) && PlainField(HeaderField("COMPRESSION", "NONE"))
    ensures PlainField(HeaderField("OLDFILEUID", "NONE"))
  {
  }

  lemma VariableFieldsPlain(ofxVersion: string, token: string)
    requires NoCR(ofxVersion) && NoCR(token)
    ensures PlainField(HeaderField("VERSION", ofxVersion + EscapedCRLF + "SECURITY:NONE"))
    ensures PlainField(HeaderField("NEWFILEUID", token))
  {
  }

  lemma HeaderFieldsPlain(ofxVersion: string, token: string)
    requires NoCR(ofxVersion) && NoCR(token)
    ensures forall i :: 0 <= i < 8 ==> PlainField(HeaderFields(ofxVersion, token)[i])
  {
    FixedFieldsPlain();
    MoreFixedFieldsPlain();
    VariableFieldsPlain(ofxVersion, token);
    var fs := HeaderFields(ofxVersion, token);
    forall i | 0 <= i < 8
      ensures PlainField(fs[i])
    {
    }
  }

  /** Read line by line at CR LF, the header block gives eight fields, in
      the order written, with the token as the new file UID; no blank line
      ends it, and what follows starts with the four characters of the
      escaped line break. */
  lemma HeadersRead(b: Banker, token: string, more: string)
    requires NoCR(b.ofxVersion) && NoCR(token) && NoCR(more)
    ensures ReadHeaders(b.GetHeaders(token) + more)
         == Some(HeaderBlock(HeaderFields(b.ofxVersion, token), false, EscapedCRLF + more))
  {
    var fs := HeaderFields(b.ofxVersion, token);
    var tail := EscapedCRLF + more;
    FieldLinesAppend(fs, EscapedCRLF, more);
    ReadHeadersNoCR(tail);
    HeaderFieldsPlain(b.ofxVersion, token);
    ReadFieldLines(fs, tail, HeaderBlock([], false, tail));
    assert fs + [] == fs;
  }

  // -------------------------------------------------------------------
  // The whole account-list document

  lemma SignOnHeadNoCR()
    ensures NoCR(SignOnPieces[0]) && NoCR(SignOnPieces[1]) && NoCR(SignOnPieces[2])
  {
  }

  lemma SignOnTailNoCR()
    ensures NoCR(SignOnPieces[3]) && NoCR(SignOnPieces[4]) && NoCR(SignOnPieces[5])
  {
  }

  lemma SignOnNoCR(b: Banker, date: string)
    requires NoCR(date) && NoCR(b.user) && NoCR(b.password) && NoCR(b.app) && NoCR(b.appVersion)
    ensures NoCR(b.SignOnMessage(date))
  {
    SignOnLayout(b, date);
    SignOnHeadNoCR();
    SignOnTailNoCR();
  }

  lemma EnvelopeNoCR(trnUid: string, cookie: string, body: string)
    requires NoCR(trnUid) && NoCR(cookie) && NoCR(body)
    ensures NoCR(EnvelopeText(trnUid, cookie, body))
    ensures EnvelopeText(trnUid, cookie, body)[|EnvelopeText(trnUid, cookie, body)| - 1] == '>'
  {
    EnvelopeSpelt(trnUid, cookie, body);
    assert NoCR(EnvelopeOpen) && NoCR(EnvelopeMiddle) && NoCR(EnvelopeClose);
    var x := CloseTag("CLTCOOKIE") + body + EnvelopeClose;
    assert x[|x| - 1] == '>';
  }

  lemma ReadOfxSteps(text: string, s1: string, f: SignOn, rest: string, inner: string, t: Transaction)
    requires ReadOpen(text, "OFX") == Some(s1)
    requires ReadSignOn(s1) == Some((f, rest))
    requires ReadCloseAtEnd(rest, "OFX") == Some(inner)
    requires ReadEnvelope(inner) == Some(t)
    ensures ReadOfx(text) == Some((f, t))
  {
  }

  lemma Regroup(a: string, b: string, d: string, e: string)
    ensures a + b + d + e == [] + a + (b + (d + e))
    ensures d + e == d + [] + e + []
  {
  }

  /** An `<OFX>` element around a sign-on block and an envelope reads as the two. */
  lemma OfxOfParts(signOn: string, env: string, f: SignOn, t: Transaction)
    requires ReadSignOn(signOn + (env + CloseTag("OFX"))) == Some((f, env + CloseTag("OFX")))
    requires ReadEnvelope(env) == Some(t)
    requires env == [] || !IsSpace(env[|env| - 1])
    ensures ReadOfx(OpenTag("OFX") + signOn + env + CloseTag("OFX")) == Some((f, t))
  {
    var c := CloseTag("OFX");
    var text := OpenTag("OFX") + signOn + env + c;
    Regroup(OpenTag("OFX"), signOn, env, c);
    ReadOpenOver([], "OFX", signOn + (env + c));
    ReadCloseAtEndOver(env, [], "OFX", []);
    ReadOfxSteps(text, signOn + (env + c), f, env + c, env, t);
  }

  lemma EnvelopeInOfx(trnUid: string, cookie: string, body: string)
    requires NoMarkup(trnUid) && NoMarkup(cookie) && NoCR(trnUid) && NoCR(cookie) && NoCR(body)
    requires body == [] || !IsSpace(body[|body| - 1])
    ensures var env := EnvelopeText(trnUid, cookie, body);
            ReadEnvelope(env) == Some(Transaction(trnUid, cookie, body)) && (env == [] || !IsSpace(env[|env| - 1]))
  {
    EnvelopeNoCR(trnUid, cookie, body);
    EnvelopeRoundTrip(trnUid, cookie, body);
  }

  /** The `<OFX>` part of a request document reads back as its sign-on block and its transaction. */
  lemma OfxPartReads(b: Banker, date: string, trnUid: string, cookie: string, body: string)
    requires NoMarkup(date) && NoMarkup(b.user) && NoMarkup(b.password)
    requires NoMarkup(b.app) && NoMarkup(b.appVersion)
    requires NoMarkup(trnUid) && NoMarkup(cookie) && NoCR(trnUid) && NoCR(cookie) && NoCR(body)
    requires body == [] || !IsSpace(body[|body| - 1])
    ensures ReadOfx(OpenTag("OFX") + b.SignOnMessage(date) + EnvelopeText(trnUid, cookie, body) + CloseTag("OFX"))
         == Some((SignOn(date, b.user, b.password, "ENG", b.app, b.appVersion), Transaction(trnUid, cookie, body)))
  {
    var env := EnvelopeText(trnUid, cookie, body);
    SignOnRoundTrip(b, date, env + CloseTag("OFX"));
    EnvelopeInOfx(trnUid, cookie, body);
    OfxOfParts(b.SignOnMessage(date), env, SignOn(date, b.user, b.password, "ENG", b.app, b.appVersion),
               Transaction(trnUid, cookie, body));
  }

  lemma DocumentParts(headers: string, signOn: string, request: string)
    requires NoCR(signOn) && NoCR(request)
    ensures AccountsDocument(headers, signOn, request)
         == headers + (OpenTag("OFX") + signOn + request + CloseTag("OFX"))
    ensures NoCR(OpenTag("OFX") + signOn + request + CloseTag("OFX"))
  {
  }

  lemma AccountInfoRequestShape()
    ensures NoCR(AccountInfoRequest) && AccountInfoRequest[|AccountInfoRequest| - 1] == '>'
  {
  }

  /** The header lines of a request document read as the eight fields, and
      what follows them is the escaped line break and the `<OFX>` part. */
  lemma DocumentHeadersRead(b: Banker, headerToken: string, signOn: string, request: string)
    requires NoCR(b.ofxVersion) && NoCR(headerToken) && NoCR(signOn) && NoCR(request)
    ensures ReadHeaders(AccountsDocument(b.GetHeaders(headerToken), signOn, request))
         == Some(HeaderBlock(HeaderFields(b.ofxVersion, headerToken), false,
                             EscapedCRLF + (OpenTag("OFX") + signOn + request + CloseTag("OFX"))))
  {
    DocumentParts(b.GetHeaders(headerToken), signOn, request);
    HeadersRead(b, headerToken, OpenTag("OFX") + signOn + request + CloseTag("OFX"));
  }

  /** The account-list document that `getAccounts` sends: its header lines
      read as the eight fields, and what follows them is the escaped line
      break and then the `<OFX>` part, which reads back as the sign-on with
      the given date and the account-list transaction with the token, the
      cookie and the 1970-01-01 sentinel. */
  lemma AccountsDocumentReads(b: Banker, headerToken: string, trnToken: string, date: string, n: nat)
    requires NoMarkup(date) && NoMarkup(b.user) && NoMarkup(b.password)
    requires NoMarkup(b.app) && NoMarkup(b.appVersion) && NoMarkup(trnToken)
    requires NoCR(date) && NoCR(b.user) && NoCR(b.password) && NoCR(b.app) && NoCR(b.appVersion)
    requires NoCR(trnToken) && NoCR(b.ofxVersion) && NoCR(headerToken)
    ensures var ofx := OpenTag("OFX") + b.SignOnMessage(date)
                       + EnvelopeText(trnToken, DecimalString(n), AccountInfoRequest) + CloseTag("OFX");
            var doc := AccountsDocument(b.GetHeaders(headerToken), b.SignOnMessage(date),
                                        EnvelopeText(trnToken, DecimalString(n), AccountInfoRequest));
            && ReadHeaders(doc) == Some(HeaderBlock(HeaderFields(b.ofxVersion, headerToken), false, EscapedCRLF + ofx))
            && ReadOfx(ofx) == Some((SignOn(date, b.user, b.password, "ENG", b.app, b.appVersion),
                                     Transaction(trnToken, DecimalString(n), AccountInfoRequest)))
  {
    var cookie := DecimalString(n);
    var sOn, env := b.SignOnMessage(date), EnvelopeText(trnToken, cookie, AccountInfoRequest);
    DigitsPlain(cookie);
    AccountInfoRequestShape();
    SignOnNoCR(b, date);
    EnvelopeNoCR(trnToken, cookie, AccountInfoRequest);
    DocumentHeadersRead(b, headerToken, sOn, env);
    OfxPartReads(b, date, trnToken, cookie, AccountInfoRequest);
  }
}
