# OFX request builder of `Banker`, in Dafny

This project models the request-assembly core of the `Banker` class of the
Cents for Change `banker` package (`src/CentsforChange/banker/banker.php`),
which builds OFX 1.x SGML request documents for a bank's OFX server. The
model covers the following parts of the class:

- the per-instance **correlation cookie** (`nextCookie`), a counter that starts
  at 3 and is raised by one for every transaction envelope;
- the **transaction envelope** (`generateMessage`): `SIGNUPMSGSRQV1` around
  `ACCTINFOTRNRQ`, with a TRNUID token, the next cookie and an inner body;
- the **account-list request** (`accountsRequest`): the envelope around the
  fixed `ACCTINFORQ` whose `DTACCTUP` is `19700101000000`;
- the **sign-on block** (`signOnMessage`): `SONRQ` with the client date, user,
  password, language `ENG`, application id and version;
- the **SGML header block** (`getHeaders`);
- the **request document** that `getAccounts` sends: headers, `<OFX>`, the
  sign-on block, the account-list request and `</OFX>`;
- the **constructor body**, which stores the identity fields and upper-cases
  the account type.

The templates keep the source's exact text, including the line feeds and the
indentation (16, 20 and 12 spaces in the sign-on block; 24, 28 and 20 in the
envelope; 32 and 28 in the account-list body). `sprintf` is modelled for the
conversions the builder uses (`Sprintf.Format`). `generateMessage`
concatenates its inner body into the format string before formatting it, so
a `%` in the body is read by `sprintf`; the model keeps that.

The random tokens from `uuid(32)` and the date from `date("Ymd")` are
parameters: `token`, `headerToken` and `trnToken` stand for the tokens, and
`date` for the date.

To say what the built text means, the project has small readers
(`OfxReader`, and the header-line reader in `Markup`). These readers skip
whitespace between elements and read `key:value` lines ended by CR LF. The
round-trip lemmas show that each built part reads back as exactly the values
it was built from, in the builder's order.

Files:

- `wrappers.dfy`: `Option` and `Result`.
- `decimal.dfy`: decimal text of a natural number (`(string)` on an int) and its inverse.
- `sprintf.dfy`: the `sprintf` subset and its lemmas.
- `markup.dfy`: tags, indentation, and the element and header-line readers.
- `banker.dfy`: the `Banker` class and its templates.
- `ofx_reader.dfy`: readers for the sign-on block, the envelope, the account-list body and `<OFX>`.
- `request_properties.dfy`: the round-trip and document lemmas.

Where the code departs from the OFX 1.x specification, the model follows
the code:

- Values are put into the SGML without the escaping (`&lt;`, `&amp;`, `&gt;`) that the specification asks for.
- The header block writes `'\r\n'` in single quotes, so it ends with those four characters instead of the blank line that separates the headers from `<OFX>`. The SECURITY line runs into the VERSION line the same way (explained below).

## Model

| member | source | states |
|---|---|---|
| OfxRequests.Banker.constructor | src/CentsforChange/banker/banker.php:53-66 | every identity field holds its argument, with defaults bankId "", appVersion "2500", ofxVersion "102", app "QWIN"; the account type is upper-cased; the cookie starts at 3 and no cookie has been handed out |
| OfxRequests.AsciiUpper | src/CentsforChange/banker/banker.php:59 | `strtoupper`: same length, no lower-case ASCII letter left, every lower-case letter moved to its capital, every other character unchanged |
| OfxRequests.Banker.NextCookie | src/CentsforChange/banker/banker.php:46-51 | the cookie goes up by exactly one, the result is its new value in decimal, the result is appended to the cookies handed out so far, and it differs from every earlier one |
| OfxRequests.FirstCookieIsFour | src/CentsforChange/banker/banker.php:45-50 | starting from 3, the first cookie handed out is "4" |
| OfxRequests.CookieIsNew | src/CentsforChange/banker/banker.php:48-51 | the next cookie value is not among the values handed out before it |
| OfxRequests.IssuedIncreasing | src/CentsforChange/banker/banker.php:48-51 | the cookies handed out are strictly increasing as numbers |
| Decimal.DecimalString | src/CentsforChange/banker/banker.php:50 | `(string)` on a non-negative int: non-empty, digits only, no leading zero except for 0 itself |
| Decimal.DecimalRoundTrip | src/CentsforChange/banker/banker.php:50 | reading the decimal text back gives the number |
| Decimal.DecimalInjective | src/CentsforChange/banker/banker.php:50 | two counter values have the same text exactly when they are equal |
| Sprintf.Format | src/CentsforChange/banker/banker.php:104 | a format without `%` comes out unchanged |
| Sprintf.FormatTemplate | src/CentsforChange/banker/banker.php:85 | a template with one argument per `%s` gives its literal parts and the arguments interleaved, in order; a `%` inside an argument is not read |
| Sprintf.FormatTooFew | src/CentsforChange/banker/banker.php:104 | a `%s` with no argument left makes the whole call fail |
| Sprintf.FormatEscapedPercent | src/CentsforChange/banker/banker.php:104 | `%%` gives one `%` |
| Sprintf.FormatTwoHolesThenMore | src/CentsforChange/banker/banker.php:97-104 | a two-hole format whose last literal part carries more text uses both arguments in the holes and formats that text with no arguments left |
| OfxRequests.EnvelopeFormatted | src/CentsforChange/banker/banker.php:97-104 | for a body without `%`, formatting the envelope fills exactly the TRNUID and CLTCOOKIE holes |
| OfxRequests.Banker.SignOnMessage | src/CentsforChange/banker/banker.php:73-87 | the block is the template's literal parts with the client date, user, password, application id and application version in its five holes, in that order, and no client UID; `RequestProperties.SignOnRoundTrip` is the reader partner |
| OfxRequests.Banker.GetHeaders | src/CentsforChange/banker/banker.php:133-144 | the block is one `key:value` line ended by CR LF for each of the eight `HeaderFields` in order (OFXHEADER:200, DATA:OFXSGML, VERSION with `\r\nSECURITY:NONE` run into its value, ENCODING:USASCII, CHARSET:1252, COMPRESSION:NONE, OLDFILEUID:NONE, NEWFILEUID:token), then the four characters `\r\n`; `RequestProperties.HeadersRead` is the reader partner |
| OfxRequests.Banker.GenerateMessage | src/CentsforChange/banker/banker.php:96-106 | consumes exactly one cookie, even when formatting fails; the result is the envelope format, with the body inside it, formatted with the token and the new cookie; for a body without `%` that is the envelope text |
| OfxRequests.Banker.AccountsRequest | src/CentsforChange/banker/banker.php:89-94 | consumes exactly one cookie and returns the envelope around the fixed ACCTINFORQ body with the token and the new cookie |
| OfxRequests.Banker.GetAccountsBody | src/CentsforChange/banker/banker.php:115 | consumes exactly one cookie; the body is the headers, `<OFX>`, the sign-on block, the account-list transaction and `</OFX>`, in that order; it starts with the OFXHEADER line and ends with `</OFX>` |
| OfxRequests.DocumentStart | src/CentsforChange/banker/banker.php:115 | the document starts with `OFXHEADER:200` and CR LF, whatever the other parts are |
| RequestProperties.SignOnRoundTrip | src/CentsforChange/banker/banker.php:73-87 | the sign-on block reads back as DTCLIENT = date, USERID = user, USERPASS = password, LANGUAGE = ENG, APPID = app, APPVER = app version, in this order, with no client UID, and the text after it is untouched; this holds for values without `<`, since the source does not escape them |
| RequestProperties.EnvelopeRoundTrip | src/CentsforChange/banker/banker.php:96-105 | the envelope reads back as one TRNUID (the token), one CLTCOOKIE (the cookie), then the body verbatim, inside ACCTINFOTRNRQ inside SIGNUPMSGSRQV1; this holds for a token and a cookie without `<` and a body that does not end in whitespace, because the reader trims whitespace |
| RequestProperties.EnvelopesDifferByCookie | src/CentsforChange/banker/banker.php:96-106 | envelopes built with cookies from different counter values differ, even around the same body and whatever the two tokens are: the CLTCOOKIE values read back from them differ; this holds for tokens without `<` and a body that does not end in whitespace |
| RequestProperties.AccountInfoReads | src/CentsforChange/banker/banker.php:91-93 | the account-list body reads as an ACCTINFORQ whose DTACCTUP is 19700101000000 |
| RequestProperties.AccountsRequestReads | src/CentsforChange/banker/banker.php:89-93 | the account-list transaction reads back as the token, the cookie and the ACCTINFORQ body with the 1970-01-01 sentinel |
| RequestProperties.EnvelopeFormatsBody | src/CentsforChange/banker/banker.php:97-104 | the body is part of the format string: the text after the cookie is the body formatted with no arguments left |
| RequestProperties.EnvelopeBodyEscapedPercent | src/CentsforChange/banker/banker.php:100-104 | for a body of text without `%`, then `%%`, then any text: the `%%` comes out as a single `%` after the text before it, and formatting goes on with the text after it |
| RequestProperties.EnvelopeBodyOnePercent | src/CentsforChange/banker/banker.php:100-104 | a body whose only `%` sign is one `%%` gives the envelope around that body with a single `%` in its place |
| RequestProperties.EnvelopeBodyHole | src/CentsforChange/banker/banker.php:100-104 | a body with a `%s` after text without `%` (and anything after it) makes formatting fail: there is no third argument |
| RequestProperties.HeadersRead | src/CentsforChange/banker/banker.php:133-144 | read as CR LF lines, the header block gives OFXHEADER=200, DATA=OFXSGML, VERSION, ENCODING=USASCII, CHARSET=1252, COMPRESSION=NONE, OLDFILEUID=NONE, NEWFILEUID=token, in this order; the VERSION value holds the version, the four characters `\r\n` and `SECURITY:NONE`; no blank line ends the block, and the text after it starts with `\r\n` as four characters; this holds for a version and a token without CR |
| RequestProperties.OfxPartReads | src/CentsforChange/banker/banker.php:115 | the `<OFX>` part reads back as its sign-on block and its transaction, for values without `<` or CR |
| RequestProperties.AccountsDocumentReads | src/CentsforChange/banker/banker.php:115 | the whole account-list document reads as the eight header fields, then the escaped line break, then an `<OFX>` part holding the sign-on with the given date and the account-list transaction with the token, the cookie and the sentinel, for any counter value and for fields without `<` or CR |

## Left out

- The HTTP request in `getAccounts` (banker.php:113-130) is not modelled: the Guzzle client, the headers it sends, the status check, and reading the response. These are network I/O through a library that is not part of this model. The response body is read but never used.
- `uuid` (banker.php:68-71) is not modelled: `random_bytes` and `base_convert` are not part of this model. Its results are parameters, with no claim about their length. `base_convert` only produces the characters `0-9a-z`, so real tokens always meet the "no `<`, no CR" requirements of the round-trip lemmas.
- `date("Ymd")` (banker.php:85) is not modelled: it reads the clock. The date is a parameter.
- `getStatement` (banker.php:146-148) is empty, so there is nothing to model.
- `test/banker.php` is not part of this model.
- The method in the source is named `__constructor`, which PHP does not call on `new`. `OfxRequests.Banker.constructor` models what its body does, as the evidently intended constructor.
- `getAccounts` creates its client with `new GuzzleHttp\Client()` (banker.php:113). Inside the namespace `CentsforChange\Banker`, that name resolves to `CentsforChange\Banker\GuzzleHttp\Client`, because the `use` at banker.php:13 imports the alias `Client`, not `GuzzleHttp`. As written, `getAccounts` therefore fails before it builds the body at banker.php:115. `OfxRequests.Banker.GetAccountsBody` models the intended assembly of the body.
- `accountsRequest` calls `generateMessage` without `$this->`, which PHP would treat as a call to an undefined function. `OfxRequests.Banker.AccountsRequest` models the intended instance call.
- The two single-quoted `'\r\n'` literals (banker.php:136, 143) are the four characters backslash, r, backslash, n, and they are modelled that way (`OfxRequests.EscapedCRLF`). `RequestProperties.HeadersRead` states the consequence for a CR LF line reader.
- OfxRequests.Banker.NextCookie: the counter is an unbounded `nat`. PHP would turn it into a float after 2^63 - 1, and that is not modelled.
- OfxRequests.AsciiUpper: only ASCII letters are upper-cased. PHP versions before 8.2 upper-case according to the locale.
- Sprintf.Format: only `%s` and `%%` are modelled. Every other conversion is reported as `UnsupportedSpecifier`, and padding, precision and positional arguments are not modelled. A `%s` with no argument left and a lone `%` at the end are errors. PHP 8 throws on these, and PHP 7 warns and returns false; the model reports an error value for both.
- RequestProperties.SignOnRoundTrip: values containing `<` are not covered. The source inserts them without escaping, so such a value can change the markup itself.
- RequestProperties.EnvelopeRoundTrip: a body that ends in whitespace is not covered, because the reader trims whitespace before a closing tag.
- Whether the server accepts the document, and how it treats the literal `\r\n` text, is not modelled.
- Concurrency is not modelled: the PHP object is single-threaded.
