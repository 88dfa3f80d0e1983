// How the llhttp callbacks of Clientconnection assemble a request from spans that may be cut
// anywhere: include/connection_types.h, lines 96 to 167. The parser itself is not modelled; it
// is a source of callback traces.

module RequestAssembly {
  import opened DataTypes

  datatype ParserEvent =
    | MessageBegin
    | OnMethod(span: string)
    | OnUrl(span: string)
    | OnVersion(span: string)
    | OnHeaderField(span: string)
    | OnHeaderValue(span: string)
    | OnHeaderValueComplete
    | OnHeadersComplete
    | OnBody(span: string)
    | OnMessageComplete

  type Trace = seq<ParserEvent>

  /** What one callback does to the request. */
  function Apply(r: Request, e: ParserEvent): Request
  {
    match e
    case OnMethod(span) => r.(httpMethod := r.httpMethod + span)
    case OnUrl(span) => r.(url := r.url + span)
    case OnVersion(span) => r.(version := r.version + span)
    case OnHeaderField(span) => r.(key := r.key + span)
    case OnHeaderValue(span) => r.(value := r.value + span)
    case OnHeaderValueComplete => r.(headers := r.headers[r.key := r.value], key := "", value := "")
    case OnBody(span) => r.(body := r.body + span)
    case MessageBegin | OnHeadersComplete | OnMessageComplete => r
  }

  /** What a trace of callbacks does to the request. */
  function ApplyAll(r: Request, t: Trace): Request
    decreases |t|
  {
    if t == [] then r else ApplyAll(Apply(r, t[0]), t[1..])
  }

  lemma {:induction false} ApplyAllAppend(r: Request, t1: Trace, t2: Trace)
    ensures ApplyAll(r, t1 + t2) == ApplyAll(ApplyAll(r, t1), t2)
    decreases |t1|
  {
    if t1 == [] {
      assert t1 + t2 == t2;
    } else {
      assert (t1 + t2)[1..] == t1[1..] + t2;
      ApplyAllAppend(Apply(r, t1[0]), t1[1..], t2);
    }
  }

  // ---- Traces that differ only in how spans are split ----

  predicate IsSpan(e: ParserEvent)
  {
    !e.MessageBegin? && !e.OnHeaderValueComplete? && !e.OnHeadersComplete? && !e.OnMessageComplete?
  }

  predicate SameKind(a: ParserEvent, b: ParserEvent)
  {
    || (a.OnMethod? && b.OnMethod?) || (a.OnUrl? && b.OnUrl?) || (a.OnVersion? && b.OnVersion?)
    || (a.OnHeaderField? && b.OnHeaderField?) || (a.OnHeaderValue? && b.OnHeaderValue?)
    || (a.OnBody? && b.OnBody?)
  }

  /** Two spans of one kind, put together. */
  function Merge(a: ParserEvent, b: ParserEvent): ParserEvent
    requires SameKind(a, b)
  {
    match a
    case OnMethod(span) => OnMethod(span + b.span)
    case OnUrl(span) => OnUrl(span + b.span)
    case OnVersion(span) => OnVersion(span + b.span)
    case OnHeaderField(span) => OnHeaderField(span + b.span)
    case OnHeaderValue(span) => OnHeaderValue(span + b.span)
    case OnBody(span) => OnBody(span + b.span)
  }

  /** The trace with every run of neighbouring spans of one kind put together. */
  function Coalesce(t: Trace): Trace
  {
    if t == [] then []
    else
      var rest := Coalesce(t[1..]);
      if rest != [] && SameKind(t[0], rest[0]) then [Merge(t[0], rest[0])] + rest[1..]
      else [t[0]] + rest
  }

  lemma MergeIsBoth(r: Request, a: ParserEvent, b: ParserEvent)
    requires SameKind(a, b)
    ensures Apply(r, Merge(a, b)) == Apply(Apply(r, a), b)
  {
    match a {
      case OnMethod(s) => assert r.httpMethod + s + b.span == r.httpMethod + (s + b.span);
      case OnUrl(s) => assert r.url + s + b.span == r.url + (s + b.span);
      case OnVersion(s) => assert r.version + s + b.span == r.version + (s + b.span);
      case OnHeaderField(s) => assert r.key + s + b.span == r.key + (s + b.span);
      case OnHeaderValue(s) => assert r.value + s + b.span == r.value + (s + b.span);
      case OnBody(s) => assert r.body + s + b.span == r.body + (s + b.span);
    }
  }

  lemma {:induction false} CoalesceKeepsMeaning(r: Request, t: Trace)
    ensures ApplyAll(r, Coalesce(t)) == ApplyAll(r, t)
    decreases |t|
  {
    if t != [] {
      var rest := Coalesce(t[1..]);
      CoalesceKeepsMeaning(Apply(r, t[0]), t[1..]);
      if rest != [] && SameKind(t[0], rest[0]) {
        MergeIsBoth(r, t[0], rest[0]);
        assert Coalesce(t)[1..] == rest[1..];
      } else {
        assert Coalesce(t)[1..] == rest;
      }
    }
  }

  /**
   * Fragmentation invariance: two traces that agree once neighbouring spans of one kind are put
   * together do the same to any request. Only the request at the start counts.
   */
  lemma FragmentationInvariance(r: Request, t1: Trace, t2: Trace)
    requires Coalesce(t1) == Coalesce(t2)
    ensures ApplyAll(r, t1) == ApplyAll(r, t2)
  {
    CoalesceKeepsMeaning(r, t1);
    CoalesceKeepsMeaning(r, t2);
  }

  /** Cutting one span in two is a difference that Coalesce does not see. */
  lemma {:induction false} CoalesceSplit(before: Trace, a: ParserEvent, b: ParserEvent, after: Trace)
    requires SameKind(a, b)
    ensures Coalesce(before + [a, b] + after) == Coalesce(before + [Merge(a, b)] + after)
  {
    if before == [] {
      var rest := Coalesce(after);
      var whole := [] + [a, b] + after;
      assert whole[1..] == [b] + after && ([b] + after)[1..] == after;
      assert ([] + [Merge(a, b)] + after)[1..] == after;
      if rest != [] && SameKind(b, rest[0]) {
        assert Coalesce([b] + after) == [Merge(b, rest[0])] + rest[1..];
        assert a.span + (b.span + rest[0].span) == (a.span + b.span) + rest[0].span;
        assert Merge(a, Merge(b, rest[0])) == Merge(Merge(a, b), rest[0]);
        assert Coalesce(whole) == [Merge(a, Merge(b, rest[0]))] + rest[1..];
      } else {
        assert Coalesce([b] + after) == [b] + rest;
        assert Coalesce(whole) == [Merge(a, b)] + rest;
      }
    } else {
      CoalesceSplit(before[1..], a, b, after);
      assert (before + [a, b] + after)[1..] == before[1..] + [a, b] + after;
      assert (before + [Merge(a, b)] + after)[1..] == before[1..] + [Merge(a, b)] + after;
    }
  }

  // ---- The traces of one message ----

  /** A request message as the peer sent it: its header lines in order, names possibly repeated. */
  datatype Message = Message(
    httpMethod: string,
    url: string,
    version: string,
    fields: seq<Field>,
    body: string)

  /** `whole` with the first `n` characters of its span taken away. */
  function Rest(whole: ParserEvent, n: nat): ParserEvent
    requires IsSpan(whole) && n <= |whole.span|
  {
    match whole
    case OnMethod(span) => OnMethod(span[n..])
    case OnUrl(span) => OnUrl(span[n..])
    case OnVersion(span) => OnVersion(span[n..])
    case OnHeaderField(span) => OnHeaderField(span[n..])
    case OnHeaderValue(span) => OnHeaderValue(span[n..])
    case OnBody(span) => OnBody(span[n..])
  }

  /** `t` is the one span `whole`, cut into any number of spans, empty ones among them. */
  predicate Spells(t: Trace, whole: ParserEvent)
    requires IsSpan(whole)
    decreases |t|
  {
    if t == [] then whole.span == ""
    else SameKind(whole, t[0]) && t[0].span <= whole.span && Spells(t[1..], Rest(whole, |t[0].span|))
  }

  /** The callbacks for one header line: its name ends at `i`. */
  predicate TracesFieldAt(t: Trace, f: Field, i: nat)
  {
    && i < |t|
    && Spells(t[..i], OnHeaderField(f.0))
    && Spells(t[i..|t| - 1], OnHeaderValue(f.1))
    && t[|t| - 1] == OnHeaderValueComplete
  }

  ghost predicate TracesField(t: Trace, f: Field)
  {
    exists i: nat :: TracesFieldAt(t, f, i)
  }

  ghost predicate TracesFields(t: Trace, fields: seq<Field>)
  {
    if fields == [] then t == []
    else exists i :: 0 <= i <= |t| && TracesField(t[..i], fields[0]) && TracesFields(t[i..], fields[1..])
  }

  /** Where the parts of a message end in its trace: method, URL, version and header lines. */
  datatype Cut = Cut(httpMethod: nat, url: nat, version: nat, fields: nat)

  ghost predicate TracesAt(t: Trace, m: Message, c: Cut)
  {
    && 1 <= c.httpMethod <= c.url <= c.version <= c.fields < |t| - 1
    && t[0] == MessageBegin
    && Spells(t[1..c.httpMethod], OnMethod(m.httpMethod))
    && Spells(t[c.httpMethod..c.url], OnUrl(m.url))
    && Spells(t[c.url..c.version], OnVersion(m.version))
    && TracesFields(t[c.version..c.fields], m.fields)
    && t[c.fields] == OnHeadersComplete
    && Spells(t[c.fields + 1..|t| - 1], OnBody(m.body))
    && t[|t| - 1] == OnMessageComplete
  }

  /** `t` is a complete callback trace of message `m`, its spans cut anywhere. */
  ghost predicate Traces(t: Trace, m: Message)
  {
    exists c :: TracesAt(t, m, c)
  }

  /** The map of the fields already there, overwritten by `fields` from first to last. */
  function Overlay(headers: map<string, string>, fields: seq<Field>): map<string, string>
    decreases |fields|
  {
    if fields == [] then headers
    else Overlay(headers[fields[0].0 := fields[0].1], fields[1..])
  }

  lemma {:induction false} OverlayIsUnion(headers: map<string, string>, fields: seq<Field>)
    ensures Overlay(headers, fields) == headers + ToMap(fields)
    decreases |fields|
  {
    if fields != [] {
      OverlayIsUnion(headers[fields[0].0 := fields[0].1], fields[1..]);
      ToMapCons(fields);
    }
  }

  lemma {:induction false} ToMapCons(fields: seq<Field>)
    requires fields != []
    ensures ToMap(fields) == map[fields[0].0 := fields[0].1] + ToMap(fields[1..])
  {
    var n := |fields| - 1;
    if n == 0 {
      assert fields[..n] == [] && fields[1..] == [];
    } else {
      ToMapCons(fields[..n]);
      assert fields[..n][1..] == fields[1..][..n - 1];
    }
  }

  /** However a span is cut, its pieces together do what the whole span would have done. */
  lemma {:induction false} SpellsApplies(r: Request, t: Trace, whole: ParserEvent)
    requires IsSpan(whole) && Spells(t, whole)
    ensures ApplyAll(r, t) == Apply(r, whole)
    decreases |t|
  {
    if t == [] {
      assert r.httpMethod + "" == r.httpMethod && r.url + "" == r.url && r.version + "" == r.version;
      assert r.key + "" == r.key && r.value + "" == r.value && r.body + "" == r.body;
    } else {
      var rest := Rest(whole, |t[0].span|);
      SpellsApplies(Apply(r, t[0]), t[1..], rest);
      MergeIsBoth(r, t[0], rest);
      assert t[0].span + rest.span == whole.span;
      assert Merge(t[0], rest) == whole;
    }
  }

  lemma FieldAssembled(r: Request, t: Trace, f: Field)
    requires r.key == "" && r.value == "" && TracesField(t, f)
    ensures ApplyAll(r, t) == r.(headers := r.headers[f.0 := f.1])
  {
    var i: nat :| TracesFieldAt(t, f, i);
    var name, value, last := t[..i], t[i..|t| - 1], t[|t| - 1..];
    var r1 := r.(key := f.0);
    var r2 := r1.(value := f.1);
    assert ApplyAll(r, name) == r1 by {
      SpellsApplies(r, name, OnHeaderField(f.0));
      assert "" + f.0 == f.0;
    }
    assert ApplyAll(r1, value) == r2 by {
      SpellsApplies(r1, value, OnHeaderValue(f.1));
      assert "" + f.1 == f.1;
    }
    assert ApplyAll(r, name + value) == r2 by { ApplyAllAppend(r, name, value); }
    ApplyAllAppend(r, name + value, last);
    ApplyOne(r2, last);
    assert t == name + value + last;
  }

  lemma ApplyOne(r: Request, t: Trace)
    requires |t| == 1
    ensures ApplyAll(r, t) == Apply(r, t[0])
  {
    assert t[1..] == [];
  }

  lemma {:induction false} FieldsAssembled(r: Request, t: Trace, fields: seq<Field>)
    requires r.key == "" && r.value == "" && TracesFields(t, fields)
    ensures ApplyAll(r, t) == r.(headers := Overlay(r.headers, fields))
    decreases |fields|
  {
    if fields != [] {
      var i :| 0 <= i <= |t| && TracesField(t[..i], fields[0]) && TracesFields(t[i..], fields[1..]);
      FieldAssembled(r, t[..i], fields[0]);
      var r1 := r.(headers := r.headers[fields[0].0 := fields[0].1]);
      FieldsAssembled(r1, t[i..], fields[1..]);
      ApplyAllAppend(r, t[..i], t[i..]);
      assert t == t[..i] + t[i..];
    }
  }

  /** Method, URL and version: the callbacks between t[1] and the first header line. */
  lemma StartLineAssembled(r: Request, t: Trace, m: Message, c: Cut)
    requires TracesAt(t, m, c)
    ensures ApplyAll(r, t[1..c.version])
            == r.(httpMethod := r.httpMethod + m.httpMethod, url := r.url + m.url,
                  version := r.version + m.version)
  {
    var t1, t2, t3 := t[1..c.httpMethod], t[c.httpMethod..c.url], t[c.url..c.version];
    var r1 := Apply(r, OnMethod(m.httpMethod));
    var r2 := Apply(r1, OnUrl(m.url));
    assert ApplyAll(r, t1) == r1 by { SpellsApplies(r, t1, OnMethod(m.httpMethod)); }
    assert ApplyAll(r1, t2) == r2 by { SpellsApplies(r1, t2, OnUrl(m.url)); }
    assert ApplyAll(r, t1 + t2) == r2 by { ApplyAllAppend(r, t1, t2); }
    SpellsApplies(r2, t3, OnVersion(m.version));
    ApplyAllAppend(r, t1 + t2, t3);
    assert t[1..c.version] == t1 + t2 + t3;
  }

  /** The header lines: the callbacks before OnHeadersComplete. */
  lemma HeadAssembled(r: Request, t: Trace, m: Message, c: Cut)
    requires r.key == "" && r.value == "" && TracesAt(t, m, c)
    ensures ApplyAll(r, t[..c.fields])
            == r.(httpMethod := r.httpMethod + m.httpMethod, url := r.url + m.url,
                  version := r.version + m.version, headers := r.headers + ToMap(m.fields))
  {
    var r3 := r.(httpMethod := r.httpMethod + m.httpMethod, url := r.url + m.url,
                 version := r.version + m.version);
    var t0, t1, t2 := t[..1], t[1..c.version], t[c.version..c.fields];
    StartLineAssembled(r, t, m, c);
    FieldsAssembled(r3, t2, m.fields);
    OverlayIsUnion(r.headers, m.fields);
    ApplyOne(r, t0);
    ApplyAllAppend(r, t0, t1);
    ApplyAllAppend(r, t0 + t1, t2);
    assert t[..c.fields] == t0 + t1 + t2;
  }

  /** Everything from OnHeadersComplete on. */
  lemma TailAssembled(r: Request, t: Trace, m: Message, c: Cut)
    requires TracesAt(t, m, c)
    ensures ApplyAll(r, t[c.fields..]) == r.(body := r.body + m.body)
  {
    var t0, t1, t2 := t[c.fields..c.fields + 1], t[c.fields + 1..|t| - 1], t[|t| - 1..];
    var r1 := Apply(r, OnBody(m.body));
    SpellsApplies(r, t1, OnBody(m.body));
    ApplyOne(r, t0);
    ApplyOne(r1, t2);
    ApplyAllAppend(r, t0, t1);
    ApplyAllAppend(r, t0 + t1, t2);
    assert t[c.fields..] == t0 + t1 + t2;
  }

  /** The request after one more message: nothing is cleared when a message begins. */
  function Continued(r: Request, m: Message): Request
  {
    Request(r.httpMethod + m.httpMethod, r.url + m.url, r.version + m.version, "", "",
            r.headers + ToMap(m.fields), r.body + m.body)
  }

  /**
   * What a whole message does to the request that is there: every part is appended to, the
   * headers are laid over the ones already there, and no header is left half read.
   */
  lemma MessageAssembled(r: Request, t: Trace, m: Message)
    requires r.key == "" && r.value == "" && Traces(t, m)
    ensures ApplyAll(r, t) == Continued(r, m)
  {
    var c :| TracesAt(t, m, c);
    HeadAssembled(r, t, m, c);
    var r4 := ApplyAll(r, t[..c.fields]);
    TailAssembled(r4, t, m, c);
    ApplyAllAppend(r, t[..c.fields], t[c.fields..]);
    assert t == t[..c.fields] + t[c.fields..];
  }

  /** The request a message stands for; the last value wins for a repeated name. */
  function Assembled(m: Message): Request
  {
    Request(m.httpMethod, m.url, m.version, "", "", ToMap(m.fields), m.body)
  }

  lemma ContinuedFromEmpty(m: Message)
    ensures Continued(EMPTY_REQUEST, m) == Assembled(m)
  {
    assert "" + m.httpMethod == m.httpMethod && "" + m.url == m.url;
    assert "" + m.version == m.version && "" + m.body == m.body;
  }

  /** The first message on a connection is assembled exactly, however its spans are cut. */
  lemma FirstMessage(t: Trace, m: Message)
    requires Traces(t, m)
    ensures ApplyAll(EMPTY_REQUEST, t) == Assembled(m)
  {
    MessageAssembled(EMPTY_REQUEST, t, m);
    ContinuedFromEmpty(m);
  }

  lemma ContinuedExactly(m1: Message, m2: Message)
    ensures Continued(Assembled(m1), m2) == Assembled(m2)
            <==> && m1.httpMethod == "" && m1.url == "" && m1.version == "" && m1.body == ""
                 && ToMap(m1.fields).Keys <= ToMap(m2.fields).Keys
  {
    AppendedEqual(m1.httpMethod, m2.httpMethod);
    AppendedEqual(m1.url, m2.url);
    AppendedEqual(m1.version, m2.version);
    AppendedEqual(m1.body, m2.body);
    var h1, h2 := ToMap(m1.fields), ToMap(m2.fields);
    assert (h1 + h2).Keys == h1.Keys + h2.Keys;
    assert h1.Keys <= h2.Keys ==> h1 + h2 == h2;
  }

  /**
   * The second message on a connection is not, in general: it is assembled as sent exactly when
   * the first left no method, URL, version and body, and no header that the second lacks.
   */
  lemma SecondMessage(t1: Trace, m1: Message, t2: Trace, m2: Message)
    requires Traces(t1, m1) && Traces(t2, m2)
    ensures ApplyAll(EMPTY_REQUEST, t1 + t2) == Assembled(m2)
            <==> && m1.httpMethod == "" && m1.url == "" && m1.version == "" && m1.body == ""
                 && ToMap(m1.fields).Keys <= ToMap(m2.fields).Keys
  {
    FirstMessage(t1, m1);
    MessageAssembled(Assembled(m1), t2, m2);
    ApplyAllAppend(EMPTY_REQUEST, t1, t2);
    ContinuedExactly(m1, m2);
  }

  lemma AppendedEqual(a: string, b: string)
    ensures a + b == b <==> a == ""
  {
    if a + b == b { assert |a + b| == |b|; }
  }

  // ---- Every message has a trace: the one that cuts nothing ----

  lemma SpellsWhole(t: Trace)
    requires |t| == 1 && IsSpan(t[0])
    ensures Spells(t, t[0])
  {
    assert Spells(t[1..], Rest(t[0], |t[0].span|));
  }

  function WholeField(f: Field): Trace
  {
    [OnHeaderField(f.0), OnHeaderValue(f.1), OnHeaderValueComplete]
  }

  function WholeFields(fields: seq<Field>): Trace
  {
    if fields == [] then [] else WholeField(fields[0]) + WholeFields(fields[1..])
  }

  function Whole(m: Message): Trace
  {
    [MessageBegin, OnMethod(m.httpMethod), OnUrl(m.url), OnVersion(m.version)]
    + WholeFields(m.fields) + [OnHeadersComplete, OnBody(m.body), OnMessageComplete]
  }

  lemma WholeTracesField(f: Field)
    ensures TracesField(WholeField(f), f)
  {
    var t := WholeField(f);
    SpellsWhole(t[..1]);
    SpellsWhole(t[1..2]);
    assert TracesFieldAt(t, f, 1);
  }

  lemma {:induction false} WholeTracesFields(fields: seq<Field>)
    ensures TracesFields(WholeFields(fields), fields)
  {
    if fields != [] {
      var t := WholeFields(fields);
      WholeTracesField(fields[0]);
      WholeTracesFields(fields[1..]);
      assert t[..3] == WholeField(fields[0]) && t[3..] == WholeFields(fields[1..]);
    }
  }

  lemma WholeTraces(m: Message)
    ensures Traces(Whole(m), m)
  {
    var t, n := Whole(m), 4 + |WholeFields(m.fields)|;
    SpellsWhole(t[1..2]);
    SpellsWhole(t[2..3]);
    SpellsWhole(t[3..4]);
    SpellsWhole(t[n + 1..n + 2]);
    WholeTracesFields(m.fields);
    assert t[4..n] == WholeFields(m.fields);
    assert TracesAt(t, m, Cut(2, 3, 4, n));
  }

  const GET := Message("GET", "/", "1.1", [], "")

  /** A concrete case: two GET requests for "/" on one connection are read as "GETGET" for "//". */
  lemma SecondMessageExample()
    ensures ApplyAll(EMPTY_REQUEST, Whole(GET) + Whole(GET)) == Request("GETGET", "//", "1.11.1", "", "", map[], "")
  {
    WholeTraces(GET);
    FirstMessage(Whole(GET), GET);
    MessageAssembled(Assembled(GET), Whole(GET), GET);
    ApplyAllAppend(EMPTY_REQUEST, Whole(GET), Whole(GET));
    GetContinued();
  }

  lemma GetContinued()
    ensures Continued(Assembled(GET), GET) == Request("GETGET", "//", "1.11.1", "", "", map[], "")
  {
    assert "GET" + "GET" == "GETGET" && "/" + "/" == "//" && "1.1" + "1.1" == "1.11.1";
    assert "" + "" == "";
  }
}
