// The values that the server's components exchange: include/data_types.h.
// A byte is a character: every result holds for all characters, 0 to 255 among them.

module DataTypes {
  datatype Option<+T> = None | Some(value: T)

  /** A header as it stands on the wire: its name and its value. */
  type Field = (string, string)

  /** What a Clientconnection has assembled of the peer's request. */
  datatype Request = Request(
    httpMethod: string,
    url: string,
    version: string,
    key: string,
    value: string,
    headers: map<string, string>,
    body: string)

  const EMPTY_REQUEST := Request("", "", "", "", "", map[], "")

  /** What a user callback asks to be sent. */
  datatype Response = Response(
    version: string,
    statusCode: string,
    statusMessage: string,
    headers: map<string, string>,
    body: string)

  /** The map a list of fields stands for; the last value given for a name wins. */
  function ToMap(fields: seq<Field>): map<string, string>
  {
    if fields == [] then map[]
    else
      var last := fields[|fields| - 1];
      ToMap(fields[..|fields| - 1])[last.0 := last.1]
  }

  predicate DistinctNames(fields: seq<Field>)
  {
    forall i, j :: 0 <= i < j < |fields| ==> fields[i].0 != fields[j].0
  }

  /** `order` is an order in which iterating over the map `headers` may visit its entries. */
  predicate IsOrder(order: seq<Field>, headers: map<string, string>)
  {
    DistinctNames(order) && ToMap(order) == headers
  }

  lemma {:induction false} ToMapPush(fields: seq<Field>, f: Field)
    ensures ToMap(fields + [f]) == ToMap(fields)[f.0 := f.1]
  {
    assert (fields + [f])[..|fields|] == fields;
  }

  /** A name is a key exactly when some field carries it, and it maps to the last such value. */
  lemma {:induction false} ToMapLookup(fields: seq<Field>, name: string)
    ensures name in ToMap(fields) <==> exists i :: 0 <= i < |fields| && fields[i].0 == name
    ensures name in ToMap(fields) ==>
              exists i :: 0 <= i < |fields| && fields[i] == (name, ToMap(fields)[name])
                          && forall j :: i < j < |fields| ==> fields[j].0 != name
  {
    if fields != [] {
      var n := |fields| - 1;
      var init := fields[..n];
      ToMapLookup(init, name);
      if fields[n].0 == name {
        assert fields[n] == (name, ToMap(fields)[name]);
      } else if name in ToMap(init) {
        var i :| 0 <= i < |init| && init[i] == (name, ToMap(init)[name])
                 && forall j :: i < j < |init| ==> init[j].0 != name;
        assert fields[i] == (name, ToMap(fields)[name]);
        forall j | i < j < |fields| ensures fields[j].0 != name {
          if j < n { assert init[j].0 != name; }
        }
      }
    }
  }

  /** Every field of an order is an entry of the map. */
  lemma OrderEntries(order: seq<Field>, headers: map<string, string>, i: nat)
    requires IsOrder(order, headers) && i < |order|
    ensures order[i].0 in headers && headers[order[i].0] == order[i].1
  {
    ToMapLookup(order, order[i].0);
    var j :| 0 <= j < |order| && order[j] == (order[i].0, headers[order[i].0]);
    assert i == j;
  }

  /** An order holds as many fields as the map has entries. */
  lemma {:induction false} OrderSize(order: seq<Field>, headers: map<string, string>)
    requires IsOrder(order, headers)
    ensures |order| == |headers|
    decreases |order|
  {
    if order != [] {
      var n := |order| - 1;
      var init := order[..n];
      OrderSize(init, ToMap(init));
      ToMapLookup(init, order[n].0);
      assert |headers.Keys| == |ToMap(init).Keys + {order[n].0}|;
    }
  }

  /** Visiting one more name keeps an order an order. */
  lemma OrderPush(order: seq<Field>, headers: map<string, string>, f: Field)
    requires IsOrder(order, headers) && f.0 !in headers
    ensures IsOrder(order + [f], headers[f.0 := f.1])
  {
    ToMapPush(order, f);
    forall i | 0 <= i < |order| ensures order[i].0 != f.0 {
      OrderEntries(order, headers, i);
    }
  }

  /** Every map can be iterated over. */
  lemma {:induction false} OrderExists(headers: map<string, string>) returns (order: seq<Field>)
    ensures IsOrder(order, headers)
    decreases |headers|
  {
    if headers == map[] {
      order := [];
    } else {
      var name :| name in headers;
      var rest := headers - {name};
      order := OrderExists(rest);
      OrderPush(order, rest, (name, headers[name]));
      order := order + [(name, headers[name])];
      assert rest[name := headers[name]] == headers;
    }
  }
}
