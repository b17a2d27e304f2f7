/**
 * The OFX 1.x request builder of the `Banker` class: the per-instance
 * correlation cookie, the SIGNUP/ACCTINFO transaction envelope, the SONRQ
 * sign-on block, the SGML header block, and the account-list request
 * document.  The random tokens that the source draws from `uuid(32)` and
 * the client date it takes from `date("Ymd")` are parameters here.
 */
module OfxRequests {
  import opened Wrappers
  import opened Decimal
  import opened Sprintf
  import opened Markup

  /** The value the correlation cookie starts from. */
  const InitialCookie: nat := 3

  /** The four characters backslash, `r`, backslash, `n`: what the single-quoted
      PHP literal `'\r\n'` denotes (it is not a line break). */
  const EscapedCRLF: string := "\\r\\n"

  /** The "accounts updated since" date of the account-list request: 1970-01-01 00:00:00. */
  const EpochSentinel: string := "19700101000000"

  // ---------------------------------------------------------------------
  // strtoupper on the account type

  function UpperChar(c: char): char {
    if 'a' <= c <= 'z' then (c as int - 32) as char else c
  }

  /** ASCII upper-casing: lower-case letters become capitals, every other character stays. */
  function AsciiUpper(s: string): (r: string)
    ensures |r| == |s|
    ensures forall i :: 0 <= i < |r| ==> !('a' <= r[i] <= 'z')
    ensures forall i :: 0 <= i < |s| && !('a' <= s[i] <= 'z') ==> r[i] == s[i]
    ensures forall i :: 0 <= i < |s| && 'a' <= s[i] <= 'z' ==> r[i] as int == s[i] as int - 32
  {
    seq(|s|, i requires 0 <= i < |s| => UpperChar(s[i]))
  }

  // ---------------------------------------------------------------------
  // Cookie values

  /** The cookies handed out while the counter went from `lo` to `hi`, oldest first. */
  function CookiesAfter(lo: nat, hi: nat): (cs: seq<string>)
    requires lo <= hi
    ensures |cs| == hi - lo
    ensures forall i :: 0 <= i < |cs| ==> cs[i] == DecimalString(lo + 1 + i)
  {
    seq(hi - lo, i requires 0 <= i < hi - lo => DecimalString(lo + 1 + i))
  }

  // ---------------------------------------------------------------------
  // Templates, with the source's line breaks and indentation

  /** The sign-on format string, cut at its five `%s` holes
      (client date, user, password, application id, application version). */
  const SignOnPieces: seq<string> := [
    OpenTag("SIGNONMSGSRQV1") + Indent(16) + OpenTag("SONRQ") + Indent(20) + OpenTag("DTCLIENT"),
    CloseTag("DTCLIENT") + Indent(20) + OpenTag("USERID"),
    CloseTag("USERID") + Indent(20) + OpenTag("USERPASS"),
    CloseTag("USERPASS") + Indent(20) + OpenTag("LANGUAGE") + "ENG" + CloseTag("LANGUAGE") + Indent(20) + OpenTag("APPID"),
    CloseTag("APPID") + Indent(20) + OpenTag("APPVER"),
    CloseTag("APPVER") + Indent(16) + CloseTag("SONRQ") + Indent(12) + CloseTag("SIGNONMSGSRQV1")
  ]

  /** The fixed inner body of the account-list request. */
  const AccountInfoRequest: string :=
    OpenTag("ACCTINFORQ") + Indent(32) + OpenTag("DTACCTUP") + EpochSentinel + CloseTag("DTACCTUP")
    + Indent(28) + CloseTag("ACCTINFORQ")

  const EnvelopeOpen: string :=
    OpenTag("SIGNUPMSGSRQV1") + Indent(24) + OpenTag("ACCTINFOTRNRQ") + Indent(28) + OpenTag("TRNUID")

  const EnvelopeMiddle: string := CloseTag("TRNUID") + Indent(28) + OpenTag("CLTCOOKIE")

  const EnvelopeClose: string := Indent(24) + CloseTag("ACCTINFOTRNRQ") + Indent(20) + CloseTag("SIGNUPMSGSRQV1")

  /** The envelope format string with the inner body already concatenated into
      it, cut at its two `%s` holes (transaction id, cookie).  The body becomes
      part of the format, so `%` signs in it are read by sprintf. */
  function EnvelopePieces(body: string): seq<string> {
    [EnvelopeOpen, EnvelopeMiddle, CloseTag("CLTCOOKIE") + body + EnvelopeClose]
  }

  /** The envelope text with transaction id `trnUid`, cookie `cookie` and inner body `body`. */
  function EnvelopeText(trnUid: string, cookie: string, body: string): string {
    Interleave(EnvelopePieces(body), [trnUid, cookie])
  }

  lemma TagsPlain(tag: string)
    requires NoPercent(tag)
    ensures NoPercent(OpenTag(tag)) && NoPercent(CloseTag(tag))
  {
    NoPercentConcat("<", tag);
    NoPercentConcat("<" + tag, ">");
    NoPercentConcat("</", tag);
    NoPercentConcat("</" + tag, ">");
  }

  lemma IndentPlain(n: nat)
    ensures NoPercent(Indent(n))
  {
  }

  /** `open`, a line break and `next`, without `%` when their parts have none. */
  lemma LinePlain(open: string, n: nat, next: string)
    requires NoPercent(open) && NoPercent(next)
    ensures NoPercent(open + Indent(n) + next)
  {
    IndentPlain(n);
    NoPercentConcat(open, Indent(n));
    NoPercentConcat(open + Indent(n), next);
  }

  lemma SignOnPiecesPlain()
    ensures forall i :: 0 <= i < |SignOnPieces| ==> NoPercent(SignOnPieces[i])
  {
    TagsPlain("SIGNONMSGSRQV1");
    TagsPlain("SONRQ");
    TagsPlain("DTCLIENT");
    TagsPlain("USERID");
    TagsPlain("USERPASS");
    TagsPlain("LANGUAGE");
    TagsPlain("APPID");
    TagsPlain("APPVER");
    LinePlain(OpenTag("SIGNONMSGSRQV1"), 16, OpenTag("SONRQ"));
    LinePlain(OpenTag("SIGNONMSGSRQV1") + Indent(16) + OpenTag("SONRQ"), 20, OpenTag("DTCLIENT"));
    LinePlain(CloseTag("DTCLIENT"), 20, OpenTag("USERID"));
    LinePlain(CloseTag("USERID"), 20, OpenTag("USERPASS"));
    NoPercentConcat(OpenTag("LANGUAGE"), "ENG");
    NoPercentConcat(OpenTag("LANGUAGE") + "ENG", CloseTag("LANGUAGE"));
    LinePlain(CloseTag("USERPASS"), 20, OpenTag("LANGUAGE") + "ENG" + CloseTag("LANGUAGE"));
    assert CloseTag("USERPASS") + Indent(20) + OpenTag("LANGUAGE") + "ENG" + CloseTag("LANGUAGE")
      == CloseTag("USERPASS") + Indent(20) + (OpenTag("LANGUAGE") + "ENG" + CloseTag("LANGUAGE"));
    LinePlain(CloseTag("USERPASS") + Indent(20) + OpenTag("LANGUAGE") + "ENG" + CloseTag("LANGUAGE"), 20, OpenTag("APPID"));
    LinePlain(CloseTag("APPID"), 20, OpenTag("APPVER"));
    LinePlain(CloseTag("APPVER"), 16, CloseTag("SONRQ"));
    LinePlain(CloseTag("APPVER") + Indent(16) + CloseTag("SONRQ"), 12, CloseTag("SIGNONMSGSRQV1"));
  }

  lemma AccountInfoRequestPlain()
    ensures NoPercent(AccountInfoRequest)
  {
    TagsPlain("ACCTINFORQ");
    TagsPlain("DTACCTUP");
    IndentPlain(32);
    IndentPlain(28);
    var a := OpenTag("ACCTINFORQ") + Indent(32) + OpenTag("DTACCTUP");
    LinePlain(OpenTag("ACCTINFORQ"), 32, OpenTag("DTACCTUP"));
    NoPercentConcat(a, EpochSentinel);
    NoPercentConcat(a + EpochSentinel, CloseTag("DTACCTUP"));
    LinePlain(a + EpochSentinel + CloseTag("DTACCTUP"), 28, CloseTag("ACCTINFORQ"));
  }

  lemma EnvelopePartsPlain()
    ensures NoPercent(EnvelopeOpen) && NoPercent(EnvelopeMiddle) && NoPercent(EnvelopeClose)
    ensures NoPercent(CloseTag("CLTCOOKIE"))
  {
    TagsPlain("SIGNUPMSGSRQV1");
    TagsPlain("ACCTINFOTRNRQ");
    TagsPlain("TRNUID");
    TagsPlain("CLTCOOKIE");
    LinePlain(OpenTag("SIGNUPMSGSRQV1"), 24, OpenTag("ACCTINFOTRNRQ"));
    LinePlain(OpenTag("SIGNUPMSGSRQV1") + Indent(24) + OpenTag("ACCTINFOTRNRQ"), 28, OpenTag("TRNUID"));
    LinePlain(CloseTag("TRNUID"), 28, OpenTag("CLTCOOKIE"));
    LinePlain([], 24, CloseTag("ACCTINFOTRNRQ"));
    assert [] + Indent(24) + CloseTag("ACCTINFOTRNRQ") == Indent(24) + CloseTag("ACCTINFOTRNRQ");
    LinePlain(Indent(24) + CloseTag("ACCTINFOTRNRQ"), 20, CloseTag("SIGNUPMSGSRQV1"));
  }

  /** Formatting the envelope of a body without `%` fills exactly the two holes. */
  lemma EnvelopeFormatted(trnUid: string, cookie: string, body: string)
    requires NoPercent(body)
    ensures Format(Template(EnvelopePieces(body)), [trnUid, cookie]) == Ok(EnvelopeText(trnUid, cookie, body))
  {
    EnvelopePartsPlain();
    NoPercentConcat(CloseTag("CLTCOOKIE"), body);
    NoPercentConcat(CloseTag("CLTCOOKIE") + body, EnvelopeClose);
    FormatTemplate(EnvelopePieces(body), [trnUid, cookie]);
  }

  /** Building the account-list request document from its three parts. */
  function AccountsDocument(headers: string, signOn: string, request: string): string {
    headers + OpenTag("OFX") + signOn + request + CloseTag("OFX")
  }

  // ---------------------------------------------------------------------
  // The header block as `key:value` lines

  /** The fields a CR LF line reader finds in the header block.  The escaped
      line break after VERSION is four plain characters, so the SECURITY line
      is read as part of the VERSION value. */
  function HeaderFields(ofxVersion: string, token: string): seq<HeaderField> {
    [HeaderField("OFXHEADER", "200"),
     HeaderField("DATA", "OFXSGML"),
     HeaderField("VERSION", ofxVersion + EscapedCRLF + "SECURITY:NONE"),
     HeaderField("ENCODING", "USASCII"),
     HeaderField("CHARSET", "1252"),
     HeaderField("COMPRESSION", "NONE"),
     HeaderField("OLDFILEUID", "NONE"),
     HeaderField("NEWFILEUID", token)]
  }

  // Moving one header line, written as the builder writes it, from the
  // prefix before it to the text after it.

  lemma LineOfTwo(p: string, line: string, key: string, value: string, r: string)
    requires line == key + ":" + value
    ensures p + line + CRLF + r == p + (key + ":" + value + CRLF + r)
  {
  }

  lemma LineOfThree(p: string, keyColon: string, key: string, value: string, r: string)
    requires keyColon == key + ":"
    ensures p + keyColon + value + CRLF + r == p + (key + ":" + value + CRLF + r)
  {
  }

  lemma VersionLine(p: string, ver: string, r: string)
    ensures p + "VERSION:" + ver + EscapedCRLF + "SECURITY:NONE" + CRLF + r
         == p + ("VERSION" + ":" + (ver + EscapedCRLF + "SECURITY:NONE") + CRLF + r)
  {
    assert "VERSION:" == "VERSION" + ":";
  }

  /** The header lines from the `k`-th field on, followed by the escaped line break. */
  function HeaderLinesFrom(k: nat, ofxVersion: string, token: string): string
    requires k <= 8
  {
    FieldLines(HeaderFields(ofxVersion, token)[k..], EscapedCRLF)
  }

  lemma HeaderLinesStep(k: nat, ofxVersion: string, token: string)
    requires k < 8
    ensures HeaderLinesFrom(k, ofxVersion, token)
         == HeaderFields(ofxVersion, token)[k].key + ":" + HeaderFields(ofxVersion, token)[k].value + CRLF
            + HeaderLinesFrom(k + 1, ofxVersion, token)
  {
    var fs := HeaderFields(ofxVersion, token);
    assert fs[k..][1..] == fs[k + 1..];
  }

  /** Each fixed header line of the builder, split at its colon. */
  lemma HeaderLinesSplit()
    ensures "OFXHEADER:200" == "OFXHEADER" + ":" + "200"
    ensures "DATA:OFXSGML" == "DATA" + ":" + "OFXSGML"
    ensures "ENCODING:USASCII" == "ENCODING" + ":" + "USASCII"
    ensures "CHARSET:1252" == "CHARSET" + ":" + "1252"
    ensures "COMPRESSION:NONE" == "COMPRESSION" + ":" + "NONE"
    ensures "OLDFILEUID:NONE" == "OLDFILEUID" + ":" + "NONE"
    ensures "NEWFILEUID:" == "NEWFILEUID" + ":"
  {
  }

  /** The header block, built line by line as `getHeaders` concatenates it
      (`p1` to `p8` are the text after each line), is the lines of
      `HeaderFields` followed by the escaped line break. */
  lemma HeaderLines(v: string, token: string, p1: string, p2: string, p3: string, p4: string,
                    p5: string, p6: string, p7: string, p8: string)
    requires p1 == "OFXHEADER:200" + CRLF
    requires p2 == p1 + "DATA:OFXSGML" + CRLF
    requires p3 == p2 + "VERSION:" + v + EscapedCRLF + "SECURITY:NONE" + CRLF
    requires p4 == p3 + "ENCODING:USASCII" + CRLF
    requires p5 == p4 + "CHARSET:1252" + CRLF
    requires p6 == p5 + "COMPRESSION:NONE" + CRLF
    requires p7 == p6 + "OLDFILEUID:NONE" + CRLF
    requires p8 == p7 + "NEWFILEUID:" + token + CRLF
    ensures p8 + EscapedCRLF == FieldLines(HeaderFields(v, token), EscapedCRLF)
  {
    HeaderLinesSplit();
    var r1, r2 := HeaderLinesFrom(1, v, token), HeaderLinesFrom(2, v, token);
    var r3, r4 := HeaderLinesFrom(3, v, token), HeaderLinesFrom(4, v, token);
    var r5, r6 := HeaderLinesFrom(5, v, token), HeaderLinesFrom(6, v, token);
    var r7, r8 := HeaderLinesFrom(7, v, token), HeaderLinesFrom(8, v, token);
    assert r8 == EscapedCRLF by { assert HeaderFields(v, token)[8..] == []; }
    HeaderLinesStep(7, v, token);
    LineOfThree(p7, "NEWFILEUID:", "NEWFILEUID", token, EscapedCRLF);
    HeaderLinesStep(6, v, token);
    LineOfTwo(p6, "OLDFILEUID:NONE", "OLDFILEUID", "NONE", r7);
    HeaderLinesStep(5, v, token);
    LineOfTwo(p5, "COMPRESSION:NONE", "COMPRESSION", "NONE", r6);
    HeaderLinesStep(4, v, token);
    LineOfTwo(p4, "CHARSET:1252", "CHARSET", "1252", r5);
    HeaderLinesStep(3, v, token);
    LineOfTwo(p3, "ENCODING:USASCII", "ENCODING", "USASCII", r4);
    HeaderLinesStep(2, v, token);
    VersionLine(p2, v, r3);
    HeaderLinesStep(1, v, token);
    LineOfTwo(p1, "DATA:OFXSGML", "DATA", "OFXSGML", r2);
    HeaderLinesStep(0, v, token);
    assert HeaderFields(v, token)[0..] == HeaderFields(v, token);
  }

  class Banker {
    const fid: string
    const org: string
    const url: string
    const bankId: string
    const user: string
    const password: string
    const accountId: string
    const accountType: string
    const clientId: string
    const appVersion: string
    const ofxVersion: string
    const app: string
    var cookie: nat

    ghost predicate Valid()
      reads this
    {
      cookie >= InitialCookie
    }

    /** Every cookie handed out by this instance so far, oldest first. */
    ghost function Issued(): seq<string>
      reads this
      requires Valid()
    {
      CookiesAfter(InitialCookie, cookie)
    }

    constructor (fid: string, org: string, url: string, user: string, password: string,
                 accountType: string, clientId: string, accountId: string, bankId: string := "",
                 appVersion: string := "2500", ofxVersion: string := "102", app: string := "QWIN")
      ensures Valid() && cookie == InitialCookie && Issued() == []
      ensures this.fid == fid && this.org == org && this.url == url
      ensures this.user == user && this.password == password
      ensures this.accountType == AsciiUpper(accountType)
      ensures this.clientId == clientId && this.accountId == accountId && this.bankId == bankId
      ensures this.appVersion == appVersion && this.ofxVersion == ofxVersion && this.app == app
    {
      this.fid := fid;
      this.org := org;
      this.url := url;
      this.user := user;
      this.password := password;
      this.accountType := AsciiUpper(accountType);
      this.clientId := clientId;
      this.accountId := accountId;
      this.bankId := bankId;
      this.appVersion := appVersion;
      this.ofxVersion := ofxVersion;
      this.app := app;
      cookie := InitialCookie;
    }

    /** Raises the cookie by one and hands out its new value in decimal;
        that value was never handed out before. */
    method NextCookie() returns (c: string)
      requires Valid()
      modifies this
      ensures Valid() && cookie == old(cookie) + 1
      ensures c == DecimalString(cookie)
      ensures Issued() == old(Issued()) + [c]
      ensures c !in old(Issued())
    {
      cookie := cookie + 1;
      c := DecimalString(cookie);
      CookiesAfterGrow(InitialCookie, old(cookie));
      CookieIsNew(InitialCookie, old(cookie));
    }

    /** The SONRQ sign-on block for the client date `date`: the template's
        literal parts with the date, user, password, application id and
        version in its five holes, in that order; no client UID element. */
    function SignOnMessage(date: string): (r: string)
      ensures r == Interleave(SignOnPieces, [date, user, password, app, appVersion])
    {
      var args := [date, user, password, app, appVersion];
      SignOnPiecesPlain();
      FormatTemplate(SignOnPieces, args);
      Format(Template(SignOnPieces), args).value
    }

    /** The OFX 1.x SGML header block, `token` standing for the new file UID:
        one `key:value` line per field of `HeaderFields`, in that order, then
        the escaped line break. */
    function GetHeaders(token: string): (r: string)
      ensures r == FieldLines(HeaderFields(ofxVersion, token), EscapedCRLF)
    {
      var p1 := "OFXHEADER:200" + CRLF;
      var p2 := p1 + "DATA:OFXSGML" + CRLF;
      var p3 := p2 + "VERSION:" + ofxVersion + EscapedCRLF + "SECURITY:NONE" + CRLF;
      var p4 := p3 + "ENCODING:USASCII" + CRLF;
      var p5 := p4 + "CHARSET:1252" + CRLF;
      var p6 := p5 + "COMPRESSION:NONE" + CRLF;
      var p7 := p6 + "OLDFILEUID:NONE" + CRLF;
      var p8 := p7 + "NEWFILEUID:" + token + CRLF;
      HeaderLines(ofxVersion, token, p1, p2, p3, p4, p5, p6, p7, p8);
      p8 + EscapedCRLF
    }

    /** Wraps `body` in the SIGNUP message set and ACCTINFO transaction with
        transaction id `token` and the next cookie.  The cookie is consumed
        before the text is formatted, so it is used up even when formatting fails. */
    method GenerateMessage(token: string, body: string) returns (r: Result<string, FormatError>)
      requires Valid()
      modifies this
      ensures Valid() && cookie == old(cookie) + 1
      ensures Issued() == old(Issued()) + [DecimalString(cookie)]
      ensures r == Format(Template(EnvelopePieces(body)), [token, DecimalString(cookie)])
      ensures NoPercent(body) ==> r == Ok(EnvelopeText(token, DecimalString(cookie), body))
    {
      var c := NextCookie();
      r := Format(Template(EnvelopePieces(body)), [token, c]);
      if NoPercent(body) {
        EnvelopeFormatted(token, c, body);
      }
    }

    /** The account-list transaction: the envelope around the fixed ACCTINFORQ body.
        (The source calls `generateMessage` without `$this->`; the instance method is meant.) */
    method AccountsRequest(token: string) returns (r: string)
      requires Valid()
      modifies this
      ensures Valid() && cookie == old(cookie) + 1
      ensures Issued() == old(Issued()) + [DecimalString(cookie)]
      ensures r == EnvelopeText(token, DecimalString(cookie), AccountInfoRequest)
    {
      AccountInfoRequestPlain();
      var m := GenerateMessage(token, AccountInfoRequest);
      r := m.value;
    }

    /** The document `getAccounts` sends: headers, then `<OFX>`, the sign-on
        block, the account-list transaction and `</OFX>`. */
    method GetAccountsBody(headerToken: string, trnToken: string, date: string) returns (body: string)
      requires Valid()
      modifies this
      ensures Valid() && cookie == old(cookie) + 1
      ensures Issued() == old(Issued()) + [DecimalString(cookie)]
      ensures body == AccountsDocument(GetHeaders(headerToken), SignOnMessage(date),
                                       EnvelopeText(trnToken, DecimalString(cookie), AccountInfoRequest))
      ensures "OFXHEADER:200" + CRLF <= body
      ensures |body| >= 6 && body[|body| - 6..] == CloseTag("OFX")
    {
      var headers := GetHeaders(headerToken);
      var signOn := SignOnMessage(date);
      var request := AccountsRequest(trnToken);
      body := AccountsDocument(headers, signOn, request);
      DocumentStart(this, headerToken, signOn, request);
    }
  }

  lemma CookiesAfterGrow(lo: nat, hi: nat)
    requires lo <= hi
    ensures CookiesAfter(lo, hi + 1) == CookiesAfter(lo, hi) + [DecimalString(hi + 1)]
  {
  }

  /** The next cookie differs from every cookie handed out before it. */
  lemma CookieIsNew(lo: nat, hi: nat)
    requires lo <= hi
    ensures DecimalString(hi + 1) !in CookiesAfter(lo, hi)
  {
    var cs := CookiesAfter(lo, hi);
    forall i | 0 <= i < |cs|
      ensures cs[i] != DecimalString(hi + 1)
    {
      DecimalInjective(lo + 1 + i, hi + 1);
    }
  }

  /** With the counter starting at 3, the first cookie handed out is "4". */
  lemma FirstCookieIsFour()
    ensures CookiesAfter(InitialCookie, InitialCookie + 1) == ["4"]
  {
    assert DecimalString(4) == [DigitChar(4)];
  }

  /** Cookies are handed out in strictly increasing numeric order. */
  lemma IssuedIncreasing(lo: nat, hi: nat)
    requires lo <= hi
    ensures forall i, j :: 0 <= i < j < hi - lo ==>
      DecimalValue(CookiesAfter(lo, hi)[i]) < DecimalValue(CookiesAfter(lo, hi)[j])
  {
    var cs := CookiesAfter(lo, hi);
    forall i, j | 0 <= i < j < hi - lo
      ensures DecimalValue(cs[i]) < DecimalValue(cs[j])
    {
      DecimalRoundTrip(lo + 1 + i);
      DecimalRoundTrip(lo + 1 + j);
    }
  }

  /** The account-list document starts with the OFXHEADER line, whatever follows it. */
  lemma DocumentStart(b: Banker, token: string, signOn: string, request: string)
    ensures "OFXHEADER:200" + CRLF <= AccountsDocument(b.GetHeaders(token), signOn, request)
  {
    var d := AccountsDocument(b.GetHeaders(token), signOn, request);
    assert d[..|"OFXHEADER:200" + CRLF|] == "OFXHEADER:200" + CRLF;
  }

}
