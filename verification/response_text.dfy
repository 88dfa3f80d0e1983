// The text of a response: what Clientconnection::serialize writes, and a reference parser
// that reads it back by the grammar of RFC 9112, sections 2.1, 4 and 5.

module ResponseText {
  import opened DataTypes

  const CRLF := "\r\n"

  function PrintFields(fields: seq<Field>): string
  {
    if fields == [] then ""
    else fields[0].0 + ": " + fields[0].1 + CRLF + PrintFields(fields[1..])
  }

  function StatusLine(r: Response): string
  {
    "HTTP/" + r.version + " " + r.statusCode + " " + r.statusMessage
  }

  /** The bytes that serialize leaves in sendBuffer when it visits the headers in `order`. */
  function Print(r: Response, order: seq<Field>): string
  {
    StatusLine(r) + CRLF + PrintFields(order) + CRLF + r.body
  }

  /** `text` is a serialization of `r`, for some order of its headers. */
  ghost predicate Prints(r: Response, text: string)
  {
    exists order :: IsOrder(order, r.headers) && text == Print(r, order)
  }

  // ---- The reference parser ----

  /** The position of the first CRLF, or |s| if there is none. */
  function FindCrlf(s: string): (i: nat)
    ensures i <= |s|
  {
    if |s| < 2 then |s|
    else if s[..2] == CRLF then 0
    else 1 + FindCrlf(s[1..])
  }

  /** The position of the first `c`, or |s| if there is none. */
  function FindChar(s: string, c: char): (i: nat)
    ensures i <= |s|
    ensures i < |s| ==> s[i] == c
    ensures forall j :: 0 <= j < i ==> s[j] != c
  {
    if s == "" then 0
    else if s[0] == c then 0
    else 1 + FindChar(s[1..], c)
  }

  predicate IsWhitespace(c: char) { c == ' ' || c == '\t' }

  function TrimLeft(s: string): string
  {
    if s != "" && IsWhitespace(s[0]) then TrimLeft(s[1..]) else s
  }

  function TrimRight(s: string): string
  {
    if s != "" && IsWhitespace(s[|s| - 1]) then TrimRight(s[..|s| - 1]) else s
  }

  /** Section 5 of RFC 9112: the optional whitespace around a value is not part of it. */
  function Trim(s: string): string { TrimRight(TrimLeft(s)) }

  predicate IsDigit(c: char) { '0' <= c <= '9' }

  /** Section 5.6.2 of RFC 9110: the characters of a token. */
  predicate IsTokenChar(c: char)
  {
    IsDigit(c) || 'a' <= c <= 'z' || 'A' <= c <= 'Z' || c in "!#$%&'*+-.^_`|~"
  }

  predicate IsToken(s: string) { s != "" && forall c :: c in s ==> IsTokenChar(c) }

  /** HTAB, SP, VCHAR and obs-text: what a reason phrase and a field value are made of. */
  predicate IsTextChar(c: char) { c == '\t' || ' ' <= c <= '~' || 0x80 <= c as int }

  predicate IsText(s: string) { forall c :: c in s ==> IsTextChar(c) }

  /** Section 2.3 of RFC 9112, after the name "HTTP/": DIGIT "." DIGIT. */
  predicate IsVersion(s: string) { |s| == 3 && IsDigit(s[0]) && s[1] == '.' && IsDigit(s[2]) }

  /** Section 4 of RFC 9112: status-code = 3DIGIT. */
  predicate IsStatusCode(s: string) { |s| == 3 && IsDigit(s[0]) && IsDigit(s[1]) && IsDigit(s[2]) }

  /** Section 5 of RFC 9112: field-line = field-name ":" OWS field-value OWS. */
  function ParseField(line: string): Option<Field>
  {
    var colon := FindChar(line, ':');
    if colon == |line| then None
    else
      var name, value := line[..colon], Trim(line[colon + 1..]);
      if IsToken(name) && IsText(value) then Some((name, value)) else None
  }

  /** The field lines up to the empty line, and what follows it. */
  function ParseFields(s: string): Option<(seq<Field>, string)>
    decreases |s|
  {
    var i := FindCrlf(s);
    if i + 2 > |s| then None
    else if i == 0 then Some(([], s[2..]))
    else
      match ParseField(s[..i])
      case None => None
      case Some(field) =>
        match ParseFields(s[i + 2..])
        case None => None
        case Some((fields, rest)) => Some(([field] + fields, rest))
  }

  /** Section 4 of RFC 9112: status-line = HTTP-version SP status-code SP [reason-phrase]. */
  function ParseStatusLine(line: string): Option<(string, string, string)>
  {
    if |line| < 5 || line[..5] != "HTTP/" then None
    else
      var rest := line[5..];
      var i := FindChar(rest, ' ');
      if i == |rest| then None
      else
        var tail := rest[i + 1..];
        var j := FindChar(tail, ' ');
        if j == |tail| then None
        else
          var version, code, message := rest[..i], tail[..j], tail[j + 1..];
          if IsVersion(version) && IsStatusCode(code) && IsText(message) then Some((version, code, message))
          else None
  }

  /** Section 2.1 of RFC 9112: start-line CRLF *( field-line CRLF ) CRLF [ message-body ]. */
  function Parse(s: string): Option<Response>
  {
    var i := FindCrlf(s);
    if i + 2 > |s| then None
    else
      match ParseStatusLine(s[..i])
      case None => None
      case Some((version, code, message)) =>
        match ParseFields(s[i + 2..])
        case None => None
        case Some((fields, body)) => Some(Response(version, code, message, ToMap(fields), body))
  }

  // ---- Well-formed responses ----

  predicate Trimmed(s: string)
  {
    s == "" || (!IsWhitespace(s[0]) && !IsWhitespace(s[|s| - 1]))
  }

  predicate WellFormedField(f: Field)
  {
    IsToken(f.0) && IsText(f.1) && Trimmed(f.1)
  }

  predicate WellFormed(r: Response)
  {
    && IsVersion(r.version) && IsStatusCode(r.statusCode) && IsText(r.statusMessage)
    && forall name :: name in r.headers ==> WellFormedField((name, r.headers[name]))
  }

  /** Section 5.6.2 of RFC 9110: a token is made of the visible characters but for the delimiters. */
  lemma TokenCharExactly(c: char)
    ensures IsTokenChar(c) <==> '!' <= c <= '~' && c !in "\"(),/:;<=>?@[\\]{}"
  {
  }

  lemma StatusCodeExactly(s: string)
    ensures IsStatusCode(s) <==> |s| == 3 && forall c :: c in s ==> '0' <= c <= '9'
  {
    if |s| == 3 {
      assert s == [s[0], s[1], s[2]] && s[0] in s && s[1] in s && s[2] in s;
    }
  }

  lemma FieldExactly(name: string, value: string)
    ensures WellFormedField((name, value)) <==>
              && name != "" && (forall c :: c in name ==> '!' <= c <= '~' && c !in "\"(),/:;<=>?@[\\]{}")
              && (forall c :: c in value ==> c == '\t' || (c >= ' ' && c as int != 127))
              && (value != "" ==> value[0] !in " \t" && value[|value| - 1] !in " \t")
  {
    forall c | c in name ensures IsTokenChar(c) <==> '!' <= c <= '~' && c !in "\"(),/:;<=>?@[\\]{}" {
      TokenCharExactly(c);
    }
  }

  /** What makes a response well formed, character by character. */
  lemma WellFormedExactly(r: Response)
    ensures WellFormed(r) <==>
              && |r.version| == 3 && '0' <= r.version[0] <= '9' && r.version[1] == '.' && '0' <= r.version[2] <= '9'
              && |r.statusCode| == 3 && (forall c :: c in r.statusCode ==> '0' <= c <= '9')
              && (forall c :: c in r.statusMessage ==> c == '\t' || (c >= ' ' && c as int != 127))
              && (forall name :: name in r.headers ==>
                    && name != "" && (forall c :: c in name ==> '!' <= c <= '~' && c !in "\"(),/:;<=>?@[\\]{}")
                    && var value := r.headers[name];
                       && (forall c :: c in value ==> c == '\t' || (c >= ' ' && c as int != 127))
                       && (value != "" ==> value[0] !in " \t" && value[|value| - 1] !in " \t"))
  {
    StatusCodeExactly(r.statusCode);
    forall name | name in r.headers
      ensures WellFormedField((name, r.headers[name])) <==>
                && name != "" && (forall c :: c in name ==> '!' <= c <= '~' && c !in "\"(),/:;<=>?@[\\]{}")
                && var value := r.headers[name];
                   && (forall c :: c in value ==> c == '\t' || (c >= ' ' && c as int != 127))
                   && (value != "" ==> value[0] !in " \t" && value[|value| - 1] !in " \t")
    {
      FieldExactly(name, r.headers[name]);
    }
  }

  // ---- Facts about the scanners ----

  /** FindCrlf skips a line that holds no CR. */
  lemma {:induction false} FindCrlfAfter(line: string, rest: string)
    requires '\r' !in line
    ensures FindCrlf(line + CRLF + rest) == |line|
  {
    var s := line + CRLF + rest;
    if line == "" {
      assert s[..2] == CRLF;
    } else {
      assert s[1..] == line[1..] + CRLF + rest;
      assert s[..2][0] == line[0] && CRLF[0] == '\r';
      FindCrlfAfter(line[1..], rest);
    }
  }

  lemma {:induction false} FindCharAfter(s: string, c: char, rest: string)
    requires c !in s
    ensures FindChar(s + [c] + rest, c) == |s|
  {
    var t := s + [c] + rest;
    var i := FindChar(t, c);
    assert t[|s|] == c;
    assert forall j :: 0 <= j < |s| ==> t[j] in s;
  }

  lemma {:induction false} TrimLeftSound(s: string)
    ensures TrimLeft(s) != "" ==> !IsWhitespace(TrimLeft(s)[0])
    ensures exists k :: 0 <= k <= |s| && TrimLeft(s) == s[k..]
  {
    if s != "" && IsWhitespace(s[0]) {
      TrimLeftSound(s[1..]);
      var k :| 0 <= k <= |s[1..]| && TrimLeft(s[1..]) == s[1..][k..];
      assert TrimLeft(s) == s[k + 1..];
    } else {
      assert TrimLeft(s) == s[0..];
    }
  }

  lemma {:induction false} TrimRightSound(s: string)
    ensures TrimRight(s) != "" ==> !IsWhitespace(TrimRight(s)[|TrimRight(s)| - 1])
    ensures exists k :: 0 <= k <= |s| && TrimRight(s) == s[..k]
  {
    if s != "" && IsWhitespace(s[|s| - 1]) {
      var init := s[..|s| - 1];
      TrimRightSound(init);
      var k :| 0 <= k <= |init| && TrimRight(init) == init[..k];
      assert TrimRight(s) == s[..k];
    } else {
      assert TrimRight(s) == s[..|s|];
    }
  }

  /** Trim strips the whitespace at both ends. */
  lemma TrimSound(s: string)
    ensures Trimmed(Trim(s))
  {
    TrimLeftSound(s);
    TrimRightSound(TrimLeft(s));
  }

  lemma TrimOfTrimmed(s: string)
    requires Trimmed(s)
    ensures Trim(" " + s) == s
  {
    assert (" " + s)[1..] == s;
    assert TrimLeft(" " + s) == TrimLeft(s) == s;
  }

  // ---- Printing, then parsing ----

  lemma FieldRoundTrip(f: Field)
    requires WellFormedField(f)
    ensures ParseField(f.0 + ": " + f.1) == Some(f)
  {
    var line := f.0 + ": " + f.1;
    FindCharAfter(f.0, ':', " " + f.1);
    assert line == f.0 + [':'] + (" " + f.1);
    assert line[..|f.0|] == f.0;
    assert line[|f.0| + 1..] == " " + f.1;
    TrimOfTrimmed(f.1);
  }

  /** No character of a well-formed field is a CR. */
  lemma FieldHasNoCr(f: Field)
    requires WellFormedField(f)
    ensures '\r' !in f.0 + ": " + f.1
  {
    assert forall c :: c in f.0 + ": " + f.1 ==> c in f.0 || c == ':' || c == ' ' || c in f.1;
  }

  lemma {:induction false} FieldsRoundTrip(fields: seq<Field>, body: string)
    requires forall f :: f in fields ==> WellFormedField(f)
    ensures ParseFields(PrintFields(fields) + CRLF + body) == Some((fields, body))
  {
    var s := PrintFields(fields) + CRLF + body;
    if fields == [] {
      assert s == "" + CRLF + body;
      FindCrlfAfter("", body);
      assert s[2..] == body;
    } else {
      var f := fields[0];
      var line := f.0 + ": " + f.1;
      var rest := PrintFields(fields[1..]) + CRLF + body;
      assert s == line + CRLF + rest;
      FieldRoundTrip(f);
      FieldHasNoCr(f);
      FindCrlfAfter(line, rest);
      assert s[..|line|] == line && s[|line| + 2..] == rest;
      FieldsRoundTrip(fields[1..], body);
      assert [f] + fields[1..] == fields;
    }
  }

  lemma SplitAtSpace(word: string, rest: string)
    requires ' ' !in word
    ensures var s := word + [' '] + rest;
            FindChar(s, ' ') == |word| && s[..|word|] == word && s[|word| + 1..] == rest
  {
    FindCharAfter(word, ' ', rest);
  }

  lemma StatusLineRoundTrip(r: Response)
    requires WellFormed(r)
    ensures ParseStatusLine(StatusLine(r)) == Some((r.version, r.statusCode, r.statusMessage))
  {
    var line, tail := StatusLine(r), r.statusCode + [' '] + r.statusMessage;
    var rest := r.version + [' '] + tail;
    assert line[..5] == "HTTP/" && line[5..] == rest;
    SplitAtSpace(r.version, tail);
    SplitAtSpace(r.statusCode, r.statusMessage);
  }

  lemma StatusLineHasNoCr(r: Response)
    requires WellFormed(r)
    ensures '\r' !in StatusLine(r)
  {
    var s := StatusLine(r);
    assert forall c :: c in s ==> || c in "HTTP/" || c in r.version || c == ' ' || c in r.statusCode
                                  || c in r.statusMessage;
    assert "HTTP/" == ['H', 'T', 'T', 'P', '/'];
  }

  lemma RoundTrip(r: Response, order: seq<Field>)
    requires IsOrder(order, r.headers) && WellFormed(r)
    ensures Parse(Print(r, order)) == Some(r)
  {
    var s := Print(r, order);
    var rest := PrintFields(order) + CRLF + r.body;
    StatusLineRoundTrip(r);
    StatusLineHasNoCr(r);
    FindCrlfAfter(StatusLine(r), rest);
    assert s == StatusLine(r) + CRLF + rest;
    assert s[..|StatusLine(r)|] == StatusLine(r);
    assert s[|StatusLine(r)| + 2..] == rest;
    forall f | f in order ensures WellFormedField(f) {
      var i :| 0 <= i < |order| && order[i] == f;
      OrderEntries(order, r.headers, i);
    }
    FieldsRoundTrip(order, r.body);
  }

  // ---- Whatever the parser returns is well formed ----

  lemma {:induction false} ParseFieldsSound(s: string)
    requires ParseFields(s).Some?
    ensures forall f :: f in ParseFields(s).value.0 ==> WellFormedField(f)
    decreases |s|
  {
    var i := FindCrlf(s);
    if i > 0 {
      TrimSound(s[..i][FindChar(s[..i], ':') + 1..]);
      ParseFieldsSound(s[i + 2..]);
    }
  }

  lemma ParseSound(s: string)
    requires Parse(s).Some?
    ensures WellFormed(Parse(s).value)
  {
    var i := FindCrlf(s);
    ParseFieldsSound(s[i + 2..]);
    var fields := ParseFields(s[i + 2..]).value.0;
    forall name | name in ToMap(fields) ensures WellFormedField((name, ToMap(fields)[name])) {
      ToMapLookup(fields, name);
    }
  }

  // ---- Main results ----

  /**
   * The reference parser recovers the response from its serialization, whatever the order in
   * which the headers were visited, exactly when the response is well formed.
   */
  lemma RoundTripExactly(r: Response, order: seq<Field>)
    requires IsOrder(order, r.headers)
    ensures Parse(Print(r, order)) == Some(r) <==> WellFormed(r)
  {
    if WellFormed(r) {
      RoundTrip(r, order);
    }
    if Parse(Print(r, order)) == Some(r) {
      ParseSound(Print(r, order));
    }
  }

  /** Two well-formed responses with a serialization in common are the same response. */
  lemma PrintInjective(r1: Response, r2: Response, text: string)
    requires WellFormed(r1) && WellFormed(r2) && Prints(r1, text) && Prints(r2, text)
    ensures r1 == r2
  {
    var o1 :| IsOrder(o1, r1.headers) && text == Print(r1, o1);
    var o2 :| IsOrder(o2, r2.headers) && text == Print(r2, o2);
    RoundTrip(r1, o1);
    RoundTrip(r2, o2);
  }

  // ---- The bytes of a serialization ----

  predicate LineBetween(text: string, before: string, line: string, after: string)
  {
    text == before + "\r\n" + line + "\r\n" + after
  }

  /** `line` is a whole line of the text, between two CRLFs. */
  ghost predicate HasLine(text: string, line: string)
  {
    exists before, after :: LineBetween(text, before, line, after)
  }

  lemma LineStays(before: string, text: string, after: string, line: string)
    requires HasLine(text, line)
    ensures HasLine(before + text + after, line)
  {
    var b, a :| LineBetween(text, b, line, a);
    assert before + text + after == (before + b) + "\r\n" + line + "\r\n" + (a + after);
    assert LineBetween(before + text + after, before + b, line, a + after);
  }

  lemma {:induction false} FieldsHaveLines(fields: seq<Field>, i: nat)
    requires i < |fields|
    ensures HasLine("\r\n" + PrintFields(fields), fields[i].0 + ": " + fields[i].1)
  {
    var f, rest := fields[0], PrintFields(fields[1..]);
    var first := f.0 + ": " + f.1;
    assert "\r\n" + PrintFields(fields) == "" + "\r\n" + first + "\r\n" + rest;
    if i == 0 {
      assert LineBetween("\r\n" + PrintFields(fields), "", first, rest);
    } else {
      FieldsHaveLines(fields[1..], i - 1);
      var line := fields[i].0 + ": " + fields[i].1;
      LineStays("\r\n" + first, "\r\n" + rest, "", line);
      assert "\r\n" + PrintFields(fields) == ("\r\n" + first) + ("\r\n" + rest) + "";
    }
  }

  lemma PrintHasLine(r: Response, order: seq<Field>, name: string)
    requires IsOrder(order, r.headers) && name in r.headers
    ensures HasLine(Print(r, order), name + ": " + r.headers[name])
  {
    var head, lines, end := StatusLine(r), "\r\n" + PrintFields(order), CRLF + r.body;
    ToMapLookup(order, name);
    var i :| 0 <= i < |order| && order[i] == (name, r.headers[name]);
    FieldsHaveLines(order, i);
    LineStays(head, lines, end, name + ": " + r.headers[name]);
    assert Print(r, order) == head + lines + end;
  }

  lemma PrintEnds(r: Response, order: seq<Field>)
    ensures var text := Print(r, order);
            |text| >= |r.body| + 4 && text[|text| - |r.body| - 4..] == "\r\n\r\n" + r.body
  {
    var lines := "\r\n" + PrintFields(order);
    LinesEnd(order);
    var before := StatusLine(r) + lines[..|lines| - 2];
    EndOf(before, "\r\n\r\n" + r.body);
    assert lines == lines[..|lines| - 2] + "\r\n";
    assert Print(r, order) == before + ("\r\n\r\n" + r.body);
  }

  /**
   * What stands in a serialization: the status line first, each header on a line of its own, an
   * empty line, and the body; with PrintLength, nothing else.
   */
  lemma PrintShape(r: Response, text: string)
    requires Prints(r, text)
    ensures "HTTP/" + r.version + " " + r.statusCode + " " + r.statusMessage + "\r\n" <= text
    ensures forall name :: name in r.headers ==> HasLine(text, name + ": " + r.headers[name])
    ensures |text| >= |r.body| + 4 && text[|text| - |r.body| - 4..] == "\r\n\r\n" + r.body
  {
    var order :| IsOrder(order, r.headers) && text == Print(r, order);
    forall name | name in r.headers ensures HasLine(text, name + ": " + r.headers[name]) {
      PrintHasLine(r, order, name);
    }
    PrintEnds(r, order);
  }

  lemma EndOf(before: string, end: string)
    ensures (before + end)[|before + end| - |end|..] == end
  {
  }

  lemma {:induction false} LinesEnd(fields: seq<Field>)
    ensures var lines := "\r\n" + PrintFields(fields);
            |lines| >= 2 && lines[|lines| - 2..] == "\r\n"
  {
    if fields != [] {
      LinesEnd(fields[1..]);
      var line := fields[0].0 + ": " + fields[0].1;
      assert "\r\n" + PrintFields(fields) == ("\r\n" + line) + ("\r\n" + PrintFields(fields[1..]));
    }
  }

  // ---- The size of a serialization ----

  function FieldBytes(f: Field): nat { |f.0| + |f.1| + 4 }

  /** The bytes the header block takes: four more than name and value for each header. */
  ghost function HeaderBytes(headers: map<string, string>): nat
    decreases |headers|
  {
    if headers == map[] then 0
    else
      var name :| name in headers;
      FieldBytes((name, headers[name])) + HeaderBytes(headers - {name})
  }

  lemma {:induction false} HeaderBytesRemove(headers: map<string, string>, name: string)
    requires name in headers
    ensures HeaderBytes(headers) == FieldBytes((name, headers[name])) + HeaderBytes(headers - {name})
    decreases |headers|
  {
    var chosen :| chosen in headers
                  && HeaderBytes(headers)
                     == FieldBytes((chosen, headers[chosen])) + HeaderBytes(headers - {chosen});
    if chosen != name {
      HeaderBytesRemove(headers - {chosen}, name);
      HeaderBytesRemove(headers - {name}, chosen);
      assert headers - {chosen} - {name} == headers - {name} - {chosen};
    }
  }

  lemma {:induction false} PrintFieldsAppend(a: seq<Field>, b: seq<Field>)
    ensures PrintFields(a + b) == PrintFields(a) + PrintFields(b)
  {
    if a == [] {
      assert a + b == b;
    } else {
      assert (a + b)[1..] == a[1..] + b;
      PrintFieldsAppend(a[1..], b);
    }
  }

  lemma {:induction false} PrintFieldsLength(order: seq<Field>, headers: map<string, string>)
    requires IsOrder(order, headers)
    ensures |PrintFields(order)| == HeaderBytes(headers)
  {
    if order != [] {
      var n := |order| - 1;
      var init, f := order[..n], order[n];
      assert order == init + [f];
      PrintFieldsAppend(init, [f]);
      assert PrintFields([f]) == f.0 + ": " + f.1 + CRLF + PrintFields([f][1..]);
      PrintFieldsLength(init, ToMap(init));
      ToMapLookup(init, f.0);
      HeaderBytesRemove(headers, f.0);
      assert headers - {f.0} == ToMap(init);
    }
  }

  /** Every serialization of a response has the same size, and none is empty. */
  lemma PrintLength(r: Response, text: string)
    requires Prints(r, text)
    ensures |text| == 11 + |r.version| + |r.statusCode| + |r.statusMessage|
                      + HeaderBytes(r.headers) + |r.body|
  {
    var order :| IsOrder(order, r.headers) && text == Print(r, order);
    PrintFieldsLength(order, r.headers);
  }
}
