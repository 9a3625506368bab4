/**
 * Parsing a Sign-In with Ethereum message (EIP-4361) and the template it is printed from. The regular expressions of
 * the parser are spelled out, including that `\s*` crosses line breaks and that matching backtracks into it.
 */
module Siwe {
  import opened Prelude

  // ---------------------------------------------------------------- characters and lines

  /** The line terminators of JavaScript regular expressions: where `.` stops and `^`, `$` match in multiline mode. */
  predicate IsTerminator(c: char) {
    c == '\n' || c == '\r' || c == '\U{2028}' || c == '\U{2029}'
  }

  /** What `\s` matches and trim() removes. */
  predicate IsSpace(c: char) {
    || IsTerminator(c) || c == ' ' || c == '\t' || c == '\U{000B}' || c == '\U{000C}'
    || c == '\U{00A0}' || c == '\U{1680}' || '\U{2000}' <= c <= '\U{200A}'
    || c == '\U{202F}' || c == '\U{205F}' || c == '\U{3000}' || c == '\U{FEFF}'
  }

  function TrimLeft(s: string): string {
    if s != [] && IsSpace(s[0]) then TrimLeft(s[1..]) else s
  }

  function TrimRight(s: string): string {
    if s != [] && IsSpace(s[|s| - 1]) then TrimRight(s[..|s| - 1]) else s
  }

  function Trim(s: string): string {
    TrimRight(TrimLeft(s))
  }

  predicate SingleLine(s: string) {
    forall i :: 0 <= i < |s| ==> !IsTerminator(s[i])
  }

  /** A value the template can carry: not empty, on one line, and with nothing for trim() to remove. */
  predicate Plain(s: string) {
    s != [] && SingleLine(s) && !IsSpace(s[0]) && !IsSpace(s[|s| - 1])
  }

  lemma PlainTrims(s: string)
    requires Plain(s)
    ensures Trim(s) == s && TrimLeft(s) == s
  {
  }

  /** The longest prefix of s without a line terminator: what `(.+)$` takes from here. */
  function RestOfLine(s: string): string {
    if s == [] || IsTerminator(s[0]) then [] else [s[0]] + RestOfLine(s[1..])
  }

  function HasNonTerminator(s: string): bool {
    exists i :: 0 <= i < |s| && !IsTerminator(s[i])
  }

  // ---------------------------------------------------------------- one field: /^tag\s*(.+)$/m, trimmed

  /**
   * What the pattern captures right after the tag. Greedy white space is skipped first, line breaks included; if that
   * runs to the end of the text, the match backs into the white space and captures a blank, which trim() empties.
   */
  function Capture(s: string): Option<string> {
    var rest := TrimLeft(s);
    if rest != [] then Some(Trim(RestOfLine(rest)))
    else if HasNonTerminator(s) then Some("")
    else None
  }

  /** The leftmost match in s; `bol` says whether s begins at the start of a line. */
  function Find(s: string, bol: bool, tag: string): Option<string> {
    if bol && tag <= s && Capture(s[|tag|..]).Some? then Capture(s[|tag|..])
    else if s == [] then None
    else Find(s[1..], IsTerminator(s[0]), tag)
  }

  function Field(text: string, tag: string): Option<string> {
    Find(text, true, tag)
  }

  /** parseInt(s, 10) on the trimmed field: an optional sign, then digits; None where it is NaN. */
  function ParseInt(s: string): Option<int> {
    var negative := s != [] && s[0] == '-';
    var body := if s != [] && (s[0] == '-' || s[0] == '+') then s[1..] else s;
    var digits := LeadingDigits(body);
    if digits == [] then None else Some(if negative then -Undec(digits) else Undec(digits))
  }

  function LeadingDigits(s: string): string {
    if s == [] || !IsDigit(s[0]) then [] else [s[0]] + LeadingDigits(s[1..])
  }

  // ---------------------------------------------------------------- header and address

  /**
   * What follows the domain on the first line. Fixed texts are written in short pieces: a literal is reasoned about
   * character by character, and a property of the whole is put together from the pieces.
   */
  const HEADER_SUFFIX := " wants you to " + "sign in with " + "your Ethereum " + "account:"

  /** The text before the first line feed, and the text after it. */
  function FirstLine(s: string): string {
    if s == [] || s[0] == '\n' then [] else [s[0]] + FirstLine(s[1..])
  }

  function AfterFirstLine(s: string): string {
    if s == [] then [] else if s[0] == '\n' then s[1..] else AfterFirstLine(s[1..])
  }

  function Domain(line: string): Option<string> {
    var n := |line| - |HEADER_SUFFIX|;
    if n >= 1 && line[n..] == HEADER_SUFFIX && SingleLine(line[..n]) then Some(Trim(line[..n])) else None
  }

  /** A line ends at a line feed and nowhere else; the text is that line, the line feed, and the rest. */
  lemma {:induction false} LineEndsAtLineFeed(s: string)
    ensures forall i :: 0 <= i < |FirstLine(s)| ==> FirstLine(s)[i] != '\n'
    ensures s == FirstLine(s) + "\n" + AfterFirstLine(s) || (s == FirstLine(s) && AfterFirstLine(s) == "")
  {
    if s != [] && s[0] != '\n' {
      LineEndsAtLineFeed(s[1..]);
      assert s == [s[0]] + s[1..];
    }
  }

  predicate IsHex(c: char) {
    IsDigit(c) || 'a' <= c <= 'f' || 'A' <= c <= 'F'
  }

  predicate IsAddress(s: string) {
    |s| == 42 && s[0] == '0' && s[1] == 'x' && forall i :: 2 <= i < 42 ==> IsHex(s[i])
  }

  datatype Parsed = Parsed(
    domain: Option<string>,
    address: Option<string>,
    chainId: Option<int>,
    nonce: Option<string>,
    uri: Option<string>,
    expiration: Option<string>,
    notBefore: Option<string>,
    issuedAt: Option<string>)

  const URI_TAG := "URI:"
  const VERSION_TAG := "Version:"
  const CHAIN_ID_TAG := "Chain ID:"
  const NONCE_TAG := "Nonce:"
  const ISSUED_AT_TAG := "Issued At:"
  const EXPIRATION_TAG := "Expiration Time:"
  const NOT_BEFORE_TAG := "Not Before:"

  function ParseSIWEMessage(text: string): Parsed {
    var address := Trim(FirstLine(AfterFirstLine(text)));
    var chainId := Field(text, CHAIN_ID_TAG);
    Parsed(
      Domain(FirstLine(text)),
      if IsAddress(address) then Some(address) else None,
      if chainId.Some? then ParseInt(chainId.value) else None,
      Field(text, NONCE_TAG),
      Field(text, URI_TAG),
      Field(text, EXPIRATION_TAG),
      Field(text, NOT_BEFORE_TAG),
      Field(text, ISSUED_AT_TAG))
  }

  // ---------------------------------------------------------------- the template

  /** What fills the template of createSIWEMessage; the wallet page's own message is one instance. */
  datatype Message = Message(
    domain: string, address: string, statement: seq<string>, uri: string, version: string, chainId: nat, nonce: string,
    issuedAt: string, expiration: Option<string>, notBefore: Option<string>, requestId: Option<string>, resources: seq<string>)

  const REQUEST_ID_TAG := "Request ID:"
  const RESOURCES := "Resources:"

  function IfAny(tag: string, value: Option<string>): seq<(string, string)> {
    if value.Some? then [(tag, value.value)] else []
  }

  /** The fields in the order in which they are printed. */
  function Fields(m: Message): seq<(string, string)> {
    [(URI_TAG, m.uri), (VERSION_TAG, m.version), (CHAIN_ID_TAG, Dec(m.chainId)), (NONCE_TAG, m.nonce), (ISSUED_AT_TAG, m.issuedAt)]
    + IfAny(EXPIRATION_TAG, m.expiration) + IfAny(NOT_BEFORE_TAG, m.notBefore) + IfAny(REQUEST_ID_TAG, m.requestId)
  }

  function FieldLines(m: Message): seq<string> {
    seq(|Fields(m)|, j requires 0 <= j < |Fields(m)| => Fields(m)[j].0 + " " + Fields(m)[j].1)
  }

  function ResourceLines(m: Message): seq<string> {
    if m.resources == [] then []
    else [RESOURCES] + seq(|m.resources|, j requires 0 <= j < |m.resources| => "- " + m.resources[j])
  }

  function Preamble(m: Message): seq<string> {
    [m.domain + HEADER_SUFFIX, m.address, ""] + m.statement + [""]
  }

  function Lines(m: Message): seq<string> {
    Preamble(m) + FieldLines(m) + ResourceLines(m)
  }

  function Join(lines: seq<string>): string {
    if lines == [] then []
    else if |lines| == 1 then lines[0]
    else lines[0] + "\n" + Join(lines[1..])
  }

  function Print(m: Message): string {
    Join(Lines(m))
  }

  const TAGS := [URI_TAG, CHAIN_ID_TAG, NONCE_TAG, ISSUED_AT_TAG, EXPIRATION_TAG, NOT_BEFORE_TAG]

  /** No field of the parser's could be read off the line's start. */
  predicate Untagged(line: string) {
    SingleLine(line) && forall i :: 0 <= i < |TAGS| ==> !(TAGS[i] <= line)
  }

  predicate Printable(m: Message) {
    && Plain(m.domain) && Untagged(m.domain + HEADER_SUFFIX)
    && IsAddress(m.address)
    && (forall i :: 0 <= i < |m.statement| ==> Untagged(m.statement[i]))
    && Plain(m.uri) && SingleLine(m.version) && Plain(m.nonce) && Plain(m.issuedAt)
    && (m.expiration.Some? ==> Plain(m.expiration.value))
    && (m.notBefore.Some? ==> Plain(m.notBefore.value))
    && (m.requestId.Some? ==> SingleLine(m.requestId.value))
    && (forall i :: 0 <= i < |m.resources| ==> SingleLine(m.resources[i]))
  }

  // ---------------------------------------------------------------- finding a field in joined lines

  lemma {:induction false} TerminatorFree(s: string, rest: string)
    requires SingleLine(s)
    ensures RestOfLine(s + "\n" + rest) == s && RestOfLine(s) == s
    ensures FirstLine(s + "\n" + rest) == s && AfterFirstLine(s + "\n" + rest) == rest
  {
    if s == [] {
      assert s + "\n" + rest == "\n" + rest;
    } else {
      TerminatorFree(s[1..], rest);
      assert (s + "\n" + rest)[1..] == s[1..] + "\n" + rest;
    }
  }

  /** Away from the start of a line, nothing matches up to the next one. */
  lemma {:induction false} FindSkips(s: string, rest: string, tag: string)
    requires SingleLine(s)
    ensures Find(s + "\n" + rest, false, tag) == Find(rest, true, tag)
    ensures Find(s, false, tag) == None
  {
    if s == [] {
      assert (s + "\n" + rest)[1..] == rest && (s + "\n" + rest)[0] == '\n';
    } else {
      FindSkips(s[1..], rest, tag);
      assert (s + "\n" + rest)[1..] == s[1..] + "\n" + rest;
    }
  }

  /** A line that does not start with the tag is passed over. */
  lemma FindSkipsLine(s: string, rest: string, tag: string)
    requires SingleLine(s) && SingleLine(tag) && tag != [] && !(tag <= s)
    ensures Find(s + "\n" + rest, true, tag) == Find(rest, true, tag)
    ensures Find(s, true, tag) == None
  {
    var text := s + "\n" + rest;
    assert text[|s|] == '\n' && text[..|s|] == s;
    assert |tag| <= |s| ==> text[..|tag|] == s[..|tag|];
    assert !(tag <= text);
    FindSkips(s, rest, tag);
    assert Find(text, true, tag) == Find(text, false, tag);
    assert Find(s, true, tag) == Find(s, false, tag);
  }

  /** One blank, then a plain value up to the end of its line: the value is captured. */
  lemma CaptureHere(value: string, tail: string)
    requires Plain(value) && RestOfLine(value + tail) == value
    ensures Capture(" " + value + tail) == Some(value)
  {
    var after := " " + value + tail;
    assert after[0] == ' ' && after[1..] == value + tail && (value + tail)[0] == value[0];
    assert TrimLeft(after) == TrimLeft(value + tail) == value + tail;
    PlainTrims(value);
  }

  /** A line made of the tag and a plain value gives the value. */
  lemma FindHere(value: string, rest: string, tag: string, last: bool)
    requires Plain(value)
    ensures Find(tag + " " + value + (if last then "" else "\n" + rest), true, tag) == Some(value)
  {
    var tail := if last then "" else "\n" + rest;
    var text := tag + " " + value + tail;
    TerminatorFree(value, rest);
    assert RestOfLine(value + tail) == value by {
      assert value + "\n" + rest == value + ("\n" + rest);
      assert value + "" == value;
    }
    CaptureHere(value, tail);
    assert text[..|tag|] == tag && text[|tag|..] == " " + value + tail;
  }

  /** Where the first line that starts with the tag decides. */
  lemma {:induction false} FindInLines(lines: seq<string>, k: nat, tag: string, value: string)
    requires k < |lines| && SingleLine(tag) && tag != []
    requires forall i :: 0 <= i < k ==> SingleLine(lines[i]) && !(tag <= lines[i])
    requires Plain(value) && lines[k] == tag + " " + value
    ensures Field(Join(lines), tag) == Some(value)
  {
    if k == 0 {
      if |lines| == 1 {
        assert lines[0] + "" == lines[0];
        FindHere(value, "", tag, true);
      } else {
        FindHere(value, Join(lines[1..]), tag, false);
        assert lines[0] + "\n" + Join(lines[1..]) == tag + " " + value + ("\n" + Join(lines[1..]));
      }
    } else {
      FindSkipsLine(lines[0], Join(lines[1..]), tag);
      FindInLines(lines[1..], k - 1, tag, value);
    }
  }

  lemma {:induction false} FindNowhere(lines: seq<string>, tag: string)
    requires lines != [] && SingleLine(tag) && tag != []
    requires forall i :: 0 <= i < |lines| ==> SingleLine(lines[i]) && !(tag <= lines[i])
    ensures Field(Join(lines), tag) == None
  {
    if |lines| == 1 {
      FindSkipsLine(lines[0], "", tag);
    } else {
      FindSkipsLine(lines[0], Join(lines[1..]), tag);
      FindNowhere(lines[1..], tag);
    }
  }

  // ---------------------------------------------------------------- the round trip

  predicate IsTag(tag: string) {
    exists i :: 0 <= i < |TAGS| && TAGS[i] == tag
  }

  /** A tag of the parser's, or one of the two it does not read. */
  predicate IsPrinted(tag: string) {
    IsTag(tag) || tag == VERSION_TAG || tag == REQUEST_ID_TAG
  }

  lemma TagShapes(tag: string)
    requires IsTag(tag)
    ensures SingleLine(tag) && tag != [] && tag[0] in ['U', 'C', 'N', 'I', 'E']
    ensures |tag| > 2 && (tag[0] == 'N' ==> tag[2] == 'n' || tag[2] == 't')
  {
  }

  lemma PrintedTagsDiffer(tag: string, own: string)
    requires IsTag(tag) && IsPrinted(own) && tag != own
    ensures |tag| > 2 && |own| > 2 && (tag[0] != own[0] || tag[2] != own[2])
  {
  }

  /** A field's line starts with its own tag and with no other. */
  lemma OtherTag(tag: string, own: string, value: string)
    requires IsTag(tag) && IsPrinted(own) && tag != own
    ensures !(tag <= own + " " + value)
  {
    PrintedTagsDiffer(tag, own);
    var line := own + " " + value;
    assert line[0] == own[0] && line[2] == own[2];
  }

  lemma FieldsPrinted(m: Message, j: nat)
    requires j < |Fields(m)|
    ensures IsPrinted(Fields(m)[j].0)
  {
    assert TAGS[0] == URI_TAG && TAGS[1] == CHAIN_ID_TAG && TAGS[2] == NONCE_TAG && TAGS[3] == ISSUED_AT_TAG
      && TAGS[4] == EXPIRATION_TAG && TAGS[5] == NOT_BEFORE_TAG;
  }

  /** The lines before the fields do not start with a tag. */
  lemma UntaggedBy(line: string, tag: string)
    requires Untagged(line) && IsTag(tag)
    ensures SingleLine(line) && !(tag <= line)
  {
    var k :| 0 <= k < |TAGS| && TAGS[k] == tag;
    assert !(TAGS[k] <= line);
  }

  lemma OtherInitial(line: string, tag: string)
    requires IsTag(tag) && (line == "" || line[0] == '0' || line[0] == 'R' || line[0] == '-')
    ensures !(tag <= line)
  {
    TagShapes(tag);
  }

  lemma PreambleUntagged(m: Message, tag: string, i: nat)
    requires Printable(m) && IsTag(tag) && i < |Preamble(m)|
    ensures SingleLine(Preamble(m)[i]) && !(tag <= Preamble(m)[i])
  {
    var line := Preamble(m)[i];
    if i == 0 {
      UntaggedBy(line, tag);
    } else if 3 <= i < |m.statement| + 3 {
      assert line == m.statement[i - 3];
      UntaggedBy(line, tag);
    } else {
      assert line == m.address || line == "";
      OtherInitial(line, tag);
    }
  }

  lemma JoinedSingle(tag: string, value: string)
    requires SingleLine(tag) && SingleLine(value)
    ensures SingleLine(tag + " " + value)
  {
  }

  lemma PrintedTagSingle(tag: string)
    requires IsPrinted(tag)
    ensures SingleLine(tag)
  {
    if IsTag(tag) {
      TagShapes(tag);
    }
  }

  lemma FieldValueSingle(m: Message, j: nat)
    requires Printable(m) && j < |Fields(m)|
    ensures SingleLine(Fields(m)[j].1)
  {
    DecDigits(m.chainId);
    assert SingleLine(Dec(m.chainId));
    assert Fields(m)[j].1 in [m.uri, m.version, Dec(m.chainId), m.nonce, m.issuedAt]
      || Some(Fields(m)[j].1) in [m.expiration, m.notBefore, m.requestId];
  }

  lemma FieldLineSingle(m: Message, j: nat)
    requires Printable(m) && j < |Fields(m)|
    ensures SingleLine(FieldLines(m)[j])
  {
    FieldsPrinted(m, j);
    PrintedTagSingle(Fields(m)[j].0);
    FieldValueSingle(m, j);
    JoinedSingle(Fields(m)[j].0, Fields(m)[j].1);
  }

  lemma ResourcesUntagged(m: Message, tag: string, i: nat)
    requires Printable(m) && IsTag(tag) && i < |ResourceLines(m)|
    ensures SingleLine(ResourceLines(m)[i]) && !(tag <= ResourceLines(m)[i])
  {
    var line := ResourceLines(m)[i];
    if i > 0 {
      ResourceLine(m, i);
      SingleLines("- ", m.resources[i - 1]);
    }
    OtherInitial(line, tag);
  }

  lemma ResourceLine(m: Message, i: nat)
    requires 0 < i < |ResourceLines(m)|
    ensures i <= |m.resources| && ResourceLines(m)[i] == "- " + m.resources[i - 1] && ResourceLines(m)[i][0] == '-'
  {
  }

  /** Every line but the j-th field's is passed over by a search for that field's tag. */
  lemma OtherLines(m: Message, tag: string, i: nat)
    requires Printable(m) && IsTag(tag) && i < |Lines(m)|
    requires forall j :: 0 <= j < |Fields(m)| && i == |Preamble(m)| + j ==> Fields(m)[j].0 != tag
    ensures SingleLine(Lines(m)[i]) && !(tag <= Lines(m)[i])
  {
    var before, fields := |Preamble(m)|, |Fields(m)|;
    if i < before {
      assert Lines(m)[i] == Preamble(m)[i];
      PreambleUntagged(m, tag, i);
    } else if i < before + fields {
      var j := i - before;
      assert Lines(m)[i] == FieldLines(m)[j] == Fields(m)[j].0 + " " + Fields(m)[j].1;
      FieldsPrinted(m, j);
      FieldLineSingle(m, j);
      OtherTag(tag, Fields(m)[j].0, Fields(m)[j].1);
    } else {
      assert Lines(m)[i] == ResourceLines(m)[i - before - fields];
      ResourcesUntagged(m, tag, i - before - fields);
    }
  }

  /** Two characters tell the tags apart. */
  lemma TagCodes()
    ensures |URI_TAG| > 2 && URI_TAG[0] == 'U' && |VERSION_TAG| > 2 && VERSION_TAG[0] == 'V'
    ensures |CHAIN_ID_TAG| > 2 && CHAIN_ID_TAG[0] == 'C' && |ISSUED_AT_TAG| > 2 && ISSUED_AT_TAG[0] == 'I'
    ensures |NONCE_TAG| > 2 && NONCE_TAG[0] == 'N' && NONCE_TAG[2] == 'n'
    ensures |NOT_BEFORE_TAG| > 2 && NOT_BEFORE_TAG[0] == 'N' && NOT_BEFORE_TAG[2] == 't'
    ensures |EXPIRATION_TAG| > 2 && EXPIRATION_TAG[0] == 'E' && |REQUEST_ID_TAG| > 2 && REQUEST_ID_TAG[0] == 'R'
  {
  }

  lemma FieldTagsDistinct(m: Message, i: nat, j: nat)
    requires i < j < |Fields(m)|
    ensures Fields(m)[i].0 != Fields(m)[j].0
  {
    TagCodes();
  }

  /** The j-th field is found by its tag, with everything before it passed over. */
  lemma FieldFound(m: Message, j: nat, tag: string, value: string)
    requires Printable(m) && j < |Fields(m)| && IsTag(tag) && Plain(value) && Fields(m)[j] == (tag, value)
    ensures Field(Print(m), tag) == Some(value)
  {
    TagShapes(tag);
    var k := |Preamble(m)| + j;
    forall i | 0 <= i < k ensures SingleLine(Lines(m)[i]) && !(tag <= Lines(m)[i]) {
      if i >= |Preamble(m)| {
        FieldTagsDistinct(m, i - |Preamble(m)|, j);
      }
      OtherLines(m, tag, i);
    }
    assert Lines(m)[k] == FieldLines(m)[j];
    FindInLines(Lines(m), k, tag, value);
  }

  lemma FieldAbsent(m: Message, tag: string)
    requires Printable(m) && IsTag(tag) && forall j :: 0 <= j < |Fields(m)| ==> Fields(m)[j].0 != tag
    ensures Field(Print(m), tag) == None
  {
    TagShapes(tag);
    forall i | 0 <= i < |Lines(m)| ensures SingleLine(Lines(m)[i]) && !(tag <= Lines(m)[i]) {
      OtherLines(m, tag, i);
    }
    FindNowhere(Lines(m), tag);
  }

  lemma {:induction false} DigitsAreLeading(s: string)
    requires forall i :: 0 <= i < |s| ==> IsDigit(s[i])
    ensures LeadingDigits(s) == s
  {
    if s != [] {
      DigitsAreLeading(s[1..]);
    }
  }

  lemma ChainIdReadsBack(n: nat)
    ensures Plain(Dec(n)) && ParseInt(Dec(n)) == Some(n)
  {
    DecDigits(n);
    DigitsAreLeading(Dec(n));
    UndecDec(n);
  }

  lemma {:induction false} DigitsThenRest(digits: string, rest: string)
    requires forall i :: 0 <= i < |digits| ==> IsDigit(digits[i])
    requires rest == "" || !IsDigit(rest[0])
    ensures LeadingDigits(digits + rest) == digits
  {
    if digits == "" {
      assert digits + rest == rest;
    } else {
      DigitsThenRest(digits[1..], rest);
      assert (digits + rest)[1..] == digits[1..] + rest;
    }
  }

  /** A chain id is the number its text begins with, sign included, whatever follows; without one it is undefined. */
  lemma NumberIsRead(n: nat, rest: string)
    requires rest == "" || !IsDigit(rest[0])
    ensures ParseInt(Dec(n) + rest) == ParseInt("+" + (Dec(n) + rest)) == Some(n)
    ensures ParseInt("-" + (Dec(n) + rest)) == Some(-(n as int))
    ensures rest != "" && rest[0] != '-' && rest[0] != '+' ==> ParseInt(rest) == None
  {
    DecDigits(n);
    DigitsThenRest(Dec(n), rest);
    UndecDec(n);
    var text := Dec(n) + rest;
    assert text[0] == Dec(n)[0];
    assert ("+" + text)[1..] == text && ("-" + text)[1..] == text;
  }

  /** An address is given iff the second line, trimmed, is one: 0x and forty hexadecimal digits. */
  lemma AddressGivenExactly(text: string)
    ensures var line := Trim(FirstLine(AfterFirstLine(text)));
      ParseSIWEMessage(text).address ==
        if |line| == 42 && line[0] == '0' && line[1] == 'x' && (forall i :: 2 <= i < 42 ==> line[i] in "0123456789abcdefABCDEF")
        then Some(line) else None
  {
    forall c: char ensures IsHex(c) <==> c in "0123456789abcdefABCDEF" {
      HexDigits(c);
    }
  }

  lemma HexDigits(c: char)
    ensures IsHex(c) <==> c in "0123456789abcdefABCDEF"
  {
    assert "0123456789abcdefABCDEF" ==
      ['0', '1', '2', '3', '4', '5', '6', '7', '8', '9', 'a', 'b', 'c', 'd', 'e', 'f', 'A', 'B', 'C', 'D', 'E', 'F'];
  }

  lemma FirstTwoLines(m: Message)
    requires SingleLine(m.domain + HEADER_SUFFIX) && SingleLine(m.address)
    ensures FirstLine(Print(m)) == m.domain + HEADER_SUFFIX && FirstLine(AfterFirstLine(Print(m))) == m.address
  {
    var lines := Lines(m);
    assert |lines| > 2 && lines[0] == m.domain + HEADER_SUFFIX && lines[1] == m.address;
    TerminatorFree(lines[0], Join(lines[1..]));
    TerminatorFree(lines[1], Join(lines[1..][1..]));
    assert Join(lines[1..]) == lines[1] + "\n" + Join(lines[1..][1..]);
  }

  ghost predicate IsHeader(line: string, name: string) {
    name != "" && SingleLine(name) && line == name + HEADER_SUFFIX
  }

  /** The first line gives a domain iff it is the header of some name, and then that name without white space around it. */
  lemma DomainGivenExactly(line: string)
    ensures Domain(line).Some? <==> exists name :: IsHeader(line, name)
    ensures forall name :: IsHeader(line, name) ==> Domain(line) == Some(Trim(name))
  {
    forall name | IsHeader(line, name) ensures Domain(line) == Some(Trim(name)) {
      assert line[..|name|] == name && line[|name|..] == HEADER_SUFFIX;
    }
    if Domain(line).Some? {
      var n := |line| - |HEADER_SUFFIX|;
      assert IsHeader(line, line[..n]);
    }
  }

  lemma DomainReadsBack(domain: string)
    requires Plain(domain)
    ensures Domain(domain + HEADER_SUFFIX) == Some(domain)
  {
    var header := domain + HEADER_SUFFIX;
    assert header[..|domain|] == domain && header[|domain|..] == HEADER_SUFFIX;
    PlainTrims(domain);
  }

  lemma HeaderReadsBack(m: Message)
    requires Printable(m)
    ensures Domain(FirstLine(Print(m))) == Some(m.domain)
    ensures Trim(FirstLine(AfterFirstLine(Print(m)))) == m.address
  {
    assert SingleLine(m.address) && Plain(m.address);
    FirstTwoLines(m);
    DomainReadsBack(m.domain);
    PlainTrims(m.address);
  }

  lemma ParserTags()
    ensures IsTag(URI_TAG) && IsTag(CHAIN_ID_TAG) && IsTag(NONCE_TAG) && IsTag(ISSUED_AT_TAG)
    ensures IsTag(EXPIRATION_TAG) && IsTag(NOT_BEFORE_TAG)
  {
    var tags := TAGS;
    assert tags[0] == URI_TAG && tags[1] == CHAIN_ID_TAG && tags[2] == NONCE_TAG && tags[3] == ISSUED_AT_TAG
      && tags[4] == EXPIRATION_TAG && tags[5] == NOT_BEFORE_TAG;
  }

  lemma FirstFields(m: Message)
    ensures |Fields(m)| >= 5 && Fields(m)[0] == (URI_TAG, m.uri) && Fields(m)[2] == (CHAIN_ID_TAG, Dec(m.chainId))
    ensures Fields(m)[3] == (NONCE_TAG, m.nonce) && Fields(m)[4] == (ISSUED_AT_TAG, m.issuedAt)
  {
  }

  lemma TextFieldsReadBack(m: Message)
    requires Printable(m)
    ensures Field(Print(m), URI_TAG) == Some(m.uri) && Field(Print(m), NONCE_TAG) == Some(m.nonce)
  {
    ParserTags();
    FirstFields(m);
    FieldFound(m, 0, URI_TAG, m.uri);
    FieldFound(m, 3, NONCE_TAG, m.nonce);
  }

  lemma TimeAndChainReadBack(m: Message)
    requires Printable(m)
    ensures Field(Print(m), CHAIN_ID_TAG) == Some(Dec(m.chainId)) && Field(Print(m), ISSUED_AT_TAG) == Some(m.issuedAt)
  {
    ChainIdReadsBack(m.chainId);
    ParserTags();
    FirstFields(m);
    FieldFound(m, 2, CHAIN_ID_TAG, Dec(m.chainId));
    FieldFound(m, 4, ISSUED_AT_TAG, m.issuedAt);
  }

  lemma OptionalFields(m: Message)
    ensures m.expiration.Some? ==> |Fields(m)| > 5 && Fields(m)[5] == (EXPIRATION_TAG, m.expiration.value)
    ensures m.notBefore.Some? ==>
      var j := if m.expiration.Some? then 6 else 5; |Fields(m)| > j && Fields(m)[j] == (NOT_BEFORE_TAG, m.notBefore.value)
  {
  }

  lemma ExpirationAbsent(m: Message)
    requires m.expiration.None?
    ensures forall j :: 0 <= j < |Fields(m)| ==> Fields(m)[j].0 != EXPIRATION_TAG
  {
    TagCodes();
  }

  lemma NotBeforeAbsent(m: Message)
    requires m.notBefore.None?
    ensures forall j :: 0 <= j < |Fields(m)| ==> Fields(m)[j].0 != NOT_BEFORE_TAG
  {
    TagCodes();
  }

  lemma OptionalFieldsReadBack(m: Message)
    requires Printable(m)
    ensures Field(Print(m), EXPIRATION_TAG) == m.expiration && Field(Print(m), NOT_BEFORE_TAG) == m.notBefore
  {
    ParserTags();
    OptionalFields(m);
    if m.expiration.Some? {
      FieldFound(m, 5, EXPIRATION_TAG, m.expiration.value);
    } else {
      ExpirationAbsent(m);
      FieldAbsent(m, EXPIRATION_TAG);
    }
    if m.notBefore.Some? {
      FieldFound(m, if m.expiration.Some? then 6 else 5, NOT_BEFORE_TAG, m.notBefore.value);
    } else {
      NotBeforeAbsent(m);
      FieldAbsent(m, NOT_BEFORE_TAG);
    }
  }

  /** Parsing a printed message gives back exactly the printed fields, and leaves the absent ones undefined. */
  lemma RoundTrip(m: Message)
    requires Printable(m)
    ensures ParseSIWEMessage(Print(m)) ==
      Parsed(Some(m.domain), Some(m.address), Some(m.chainId), Some(m.nonce), Some(m.uri), m.expiration, m.notBefore, Some(m.issuedAt))
  {
    HeaderReadsBack(m);
    TextFieldsReadBack(m);
    TimeAndChainReadBack(m);
    ChainIdReadsBack(m.chainId);
    OptionalFieldsReadBack(m);
  }

  /** The wallet page's statement, in pieces like the header. */
  const WALLET_STATEMENT := "Sign this " + "message to " + "authenticate " + "with LANAgent."

  /** The message of the wallet page. */
  function WalletMessage(address: string, nonce: string, issuedAt: string): Message {
    Message("LANAgent", address, [WALLET_STATEMENT], "http://localhost", "1", 1, nonce, issuedAt, None, None, None, [])
  }

  lemma SingleLines(a: string, b: string)
    requires SingleLine(a) && SingleLine(b)
    ensures SingleLine(a + b)
  {
  }

  lemma HeaderSuffixSingle()
    ensures SingleLine(HEADER_SUFFIX)
  {
    SingleLines(" wants you to ", "sign in with ");
    SingleLines(" wants you to " + "sign in with ", "your Ethereum ");
    SingleLines(" wants you to " + "sign in with " + "your Ethereum ", "account:");
  }

  lemma WalletStatementSingle()
    ensures SingleLine(WALLET_STATEMENT) && WALLET_STATEMENT != [] && WALLET_STATEMENT[0] == 'S'
  {
    assert "Sign this "[0] == 'S';
    SingleLines("Sign this ", "message to ");
    SingleLines("Sign this " + "message to ", "authenticate ");
    SingleLines("Sign this " + "message to " + "authenticate ", "with LANAgent.");
  }

  /** No tag starts with the capital of either fixed line. */
  lemma UntaggedByInitial(line: string)
    requires SingleLine(line) && line != [] && (line[0] == 'L' || line[0] == 'S')
    ensures Untagged(line)
  {
    forall i | 0 <= i < |TAGS| ensures TAGS[i] != [] && TAGS[i][0] != 'L' && TAGS[i][0] != 'S' {
    }
  }

  lemma WalletMessagePrintable(address: string, nonce: string, issuedAt: string)
    requires IsAddress(address) && Plain(nonce) && Plain(issuedAt)
    ensures Printable(WalletMessage(address, nonce, issuedAt))
  {
    var domain := "LANAgent";
    assert domain[0] == 'L' && domain[|domain| - 1] == 't';
    HeaderSuffixSingle();
    SingleLines(domain, HEADER_SUFFIX);
    assert (domain + HEADER_SUFFIX)[0] == domain[0];
    UntaggedByInitial(domain + HEADER_SUFFIX);
    WalletStatementSingle();
    UntaggedByInitial(WALLET_STATEMENT);
    var uri := "http://localhost";
    assert uri[0] == 'h' && uri[|uri| - 1] == 't';
  }

  lemma WalletMessageRoundTrips(address: string, nonce: string, issuedAt: string)
    requires IsAddress(address) && Plain(nonce) && Plain(issuedAt)
    ensures var p := ParseSIWEMessage(Print(WalletMessage(address, nonce, issuedAt)));
      p == Parsed(Some("LANAgent"), Some(address), Some(1), Some(nonce), Some("http://localhost"), None, None, Some(issuedAt))
  {
    WalletMessagePrintable(address, nonce, issuedAt);
    RoundTrip(WalletMessage(address, nonce, issuedAt));
  }

  // ---------------------------------------------------------------- exactly which values survive

  predicate BlankOrTab(s: string) {
    forall i :: 0 <= i < |s| ==> s[i] == ' ' || s[i] == '\t'
  }

  lemma {:induction false} LeftPadding(pad: string, rest: string)
    requires BlankOrTab(pad) && rest != "" && !IsSpace(rest[0])
    ensures TrimLeft(pad + rest) == rest
  {
    if pad == "" {
      assert pad + rest == rest;
    } else {
      assert (pad + rest)[1..] == pad[1..] + rest;
      LeftPadding(pad[1..], rest);
    }
  }

  lemma {:induction false} RightPadding(rest: string, pad: string)
    requires BlankOrTab(pad) && rest != "" && !IsSpace(rest[|rest| - 1])
    ensures TrimRight(rest + pad) == rest
  {
    if pad == "" {
      assert rest + pad == rest;
    } else {
      assert (rest + pad)[..|rest + pad| - 1] == rest + pad[..|pad| - 1];
      RightPadding(rest, pad[..|pad| - 1]);
    }
  }

  /** Blanks and tabs around a value are not part of it. */
  lemma PaddingIsDropped(tag: string, left: string, value: string, right: string, rest: string)
    requires Plain(value) && BlankOrTab(left) && BlankOrTab(right)
    ensures Find(tag + (left + (value + right) + "\n" + rest), true, tag) == Some(value)
  {
    var text := tag + (left + (value + right) + "\n" + rest);
    assert text[..|tag|] == tag && text[|tag|..] == left + ((value + right) + "\n" + rest);
    LeftPadding(left, (value + right) + "\n" + rest);
    TerminatorFree(value + right, rest);
    assert (value + right)[0] == value[0];
    RightPadding(value, right);
    assert TrimLeft(value + right) == value + right;
  }

  lemma {:induction false} TrimmedEnds(s: string)
    ensures Trim(s) == "" || (!IsSpace(Trim(s)[0]) && !IsSpace(Trim(s)[|Trim(s)| - 1]))
    ensures SingleLine(s) ==> SingleLine(Trim(s))
  {
    LeftTrimmed(s);
    RightTrimmed(TrimLeft(s));
  }

  lemma {:induction false} LeftTrimmed(s: string)
    ensures TrimLeft(s) == "" || !IsSpace(TrimLeft(s)[0])
    ensures SingleLine(s) ==> SingleLine(TrimLeft(s))
  {
    if s != [] && IsSpace(s[0]) {
      LeftTrimmed(s[1..]);
    }
  }

  lemma {:induction false} RightTrimmed(s: string)
    ensures TrimRight(s) <= s && (TrimRight(s) == "" || !IsSpace(TrimRight(s)[|TrimRight(s)| - 1]))
    ensures SingleLine(s) ==> SingleLine(TrimRight(s))
    ensures s != [] && !IsSpace(s[0]) ==> TrimRight(s) != ""
  {
    if s != [] && IsSpace(s[|s| - 1]) {
      RightTrimmed(s[..|s| - 1]);
    }
  }

  lemma {:induction false} RestIsSingleLine(s: string)
    ensures SingleLine(RestOfLine(s))
    ensures s != [] && !IsTerminator(s[0]) ==> RestOfLine(s) != [] && RestOfLine(s)[0] == s[0]
  {
    if s != [] && !IsTerminator(s[0]) {
      RestIsSingleLine(s[1..]);
    }
  }

  /** Whatever the text, a field that is found is empty or plain. */
  lemma {:induction false} FoundIsPlain(s: string, bol: bool, tag: string)
    ensures var r := Find(s, bol, tag); r.Some? ==> r.value == "" || Plain(r.value)
  {
    if bol && tag <= s && Capture(s[|tag|..]).Some? {
      var rest := TrimLeft(s[|tag|..]);
      RestIsSingleLine(rest);
      TrimmedEnds(RestOfLine(rest));
    } else if s != [] {
      FoundIsPlain(s[1..], IsTerminator(s[0]), tag);
    }
  }

  /** An empty value is read as the line after it. */
  lemma EmptyValueTakesNextLine(tag: string, next: string)
    requires next != [] && !IsSpace(next[0])
    ensures Find(tag + " " + "" + "\n" + next, true, tag) == Some(Trim(RestOfLine(next)))
  {
    var text := tag + " " + "" + "\n" + next;
    var after := " \n" + next;
    assert text[..|tag|] == tag && text[|tag|..] == after;
    assert after[1..][1..] == next && after[1..][0] == '\n';
    assert TrimLeft(after) == TrimLeft(after[1..]) == TrimLeft(next) == next;
  }

  /** At the very end of the text the pattern backs into blanks: they are read as an empty value, and nothing as none. */
  lemma BlankAtTheEnd(tag: string, blanks: string)
    requires BlankOrTab(blanks) && tag != "" && SingleLine(tag)
    ensures blanks != "" ==> Find(tag + blanks, true, tag) == Some("")
    ensures Find(tag, true, tag) == None
  {
    var text := tag + blanks;
    assert text[..|tag|] == tag && text[|tag|..] == blanks && tag[|tag|..] == "";
    AllBlank(blanks);
    if blanks != "" {
      assert !IsTerminator(blanks[0]);
    }
    FindSkips(tag, "", tag);
    assert Find(tag, true, tag) == Find(tag, false, tag);
  }

  lemma {:induction false} AllBlank(blanks: string)
    requires BlankOrTab(blanks)
    ensures TrimLeft(blanks) == ""
  {
    if blanks != "" {
      AllBlank(blanks[1..]);
    }
  }

  /** Everything but the nonce is as the template needs it. */
  predicate PrintableBar(m: Message) {
    Printable(m.(nonce := "n"))
  }

  lemma IssuedAtLineIsPlain(issuedAt: string)
    requires Plain(issuedAt)
    ensures var line := ISSUED_AT_TAG + " " + issuedAt;
      Plain(line) && RestOfLine(line) == line && Trim(line) == line
  {
    var line := ISSUED_AT_TAG + " " + issuedAt;
    SingleLines(ISSUED_AT_TAG, " ");
    SingleLines(ISSUED_AT_TAG + " ", issuedAt);
    assert line[0] == 'I' && line[|line| - 1] == issuedAt[|issuedAt| - 1];
    TerminatorFree(line, "");
    PlainTrims(line);
  }

  /** The lines from the nonce's on, when the nonce is empty. */
  lemma FromTheNonce(m: Message)
    requires m.nonce == ""
    ensures var lines := Lines(m)[|Preamble(m)| + 3..];
      |lines| >= 2 && lines[0] == NONCE_TAG + " " + "" && lines[1] == ISSUED_AT_TAG + " " + m.issuedAt
  {
    FirstFields(m);
    assert FieldLines(m)[3] == NONCE_TAG + " " + "" && FieldLines(m)[4] == ISSUED_AT_TAG + " " + m.issuedAt;
  }

  /** The first of some lines is what is left of its line. */
  lemma FirstOfLines(lines: seq<string>)
    requires lines != [] && SingleLine(lines[0]) && lines[0] != []
    ensures RestOfLine(Join(lines)) == lines[0] && Join(lines) != [] && Join(lines)[0] == lines[0][0]
  {
    if |lines| > 1 {
      TerminatorFree(lines[0], Join(lines[1..]));
    } else {
      TerminatorFree(lines[0], "");
    }
  }

  /** Replacing the nonce changes no line before its own. */
  lemma SameBeforeNonce(m: Message, n: Message, i: nat)
    requires n == m.(nonce := n.nonce) && i < |Preamble(m)| + 3
    ensures i < |Lines(m)| && i < |Lines(n)| && Lines(m)[i] == Lines(n)[i]
  {
    FirstFields(m);
    FirstFields(n);
    assert Preamble(m) == Preamble(n);
    if i >= |Preamble(m)| {
      var j := i - |Preamble(m)|;
      assert Fields(m)[j] == Fields(n)[j] && Lines(m)[i] == FieldLines(m)[j] && Lines(n)[i] == FieldLines(n)[j];
    } else {
      assert Lines(m)[i] == Preamble(m)[i] && Lines(n)[i] == Preamble(n)[i];
    }
  }

  lemma BeforeTheNonce(m: Message, i: nat)
    requires Printable(m) && i < |Preamble(m)| + 3
    ensures i < |Lines(m)| && SingleLine(Lines(m)[i]) && !(NONCE_TAG <= Lines(m)[i])
  {
    ParserTags();
    FirstFields(m);
    if i >= |Preamble(m)| {
      FieldTagsDistinct(m, i - |Preamble(m)|, 3);
    }
    OtherLines(m, NONCE_TAG, i);
  }

  /** A message with an empty nonce gives its time line as the nonce. */
  lemma EmptyNonceLost(m: Message)
    requires PrintableBar(m) && m.nonce == ""
    ensures Field(Print(m), NONCE_TAG) == Some(ISSUED_AT_TAG + " " + m.issuedAt)
  {
    var good, k := m.(nonce := "n"), |Preamble(m)| + 3;
    ParserTags();
    TagShapes(NONCE_TAG);
    forall i | 0 <= i < k ensures SingleLine(Lines(m)[i]) && !(NONCE_TAG <= Lines(m)[i]) {
      SameBeforeNonce(m, good, i);
      BeforeTheNonce(good, i);
    }
    FromTheNonce(m);
    SkipTo(Lines(m), k, NONCE_TAG);
    var lines := Lines(m)[k..];
    IssuedAtLineIsPlain(m.issuedAt);
    FirstOfLines(lines[1..]);
    EmptyValueTakesNextLine(NONCE_TAG, Join(lines[1..]));
  }

  lemma {:induction false} SkipTo(lines: seq<string>, k: nat, tag: string)
    requires k < |lines| && SingleLine(tag) && tag != []
    requires forall i :: 0 <= i < k ==> SingleLine(lines[i]) && !(tag <= lines[i])
    ensures Field(Join(lines), tag) == Field(Join(lines[k..]), tag)
  {
    if k == 0 {
      assert lines[k..] == lines;
    } else {
      FindSkipsLine(lines[0], Join(lines[1..]), tag);
      SkipTo(lines[1..], k - 1, tag);
      assert lines[1..][k - 1..] == lines[k..];
    }
  }

  /** In an otherwise printable message, the nonce comes back unchanged exactly when it is non-empty, on one line and trimmed. */
  lemma NonceSurvivesExactly(m: Message)
    requires PrintableBar(m)
    ensures ParseSIWEMessage(Print(m)).nonce == Some(m.nonce) <==> Plain(m.nonce)
  {
    if Plain(m.nonce) {
      RoundTrip(m);
    } else if m.nonce == "" {
      EmptyNonceLost(m);
    } else {
      FoundIsPlain(Print(m), true, NONCE_TAG);
    }
  }
}
