/**
 * JSON response shaping (`json_response` and its inner `fixup`): every object
 * key "krate" in an already-parsed JSON tree is renamed to "crate", at every
 * depth, and the shaped tree is wrapped in a 200 response.
 */
module JsonShaping {
  import opened Wrappers
  import opened Http
  import opened Text

  /**
   * A parsed JSON value. An object is an ordered map from key to value (a
   * binary-tree map in the source, so keys are unique and iterated in
   * ascending order); floating-point numbers are carried, never computed on.
   */
  datatype Json =
    | I64(i: int)
    | U64(u: nat)
    | F64(f: real)
    | Str(s: string)
    | Boolean(b: bool)
    | Array(items: seq<Json>)
    | Object(fields: map<string, Json>)
    | Null

  const OldKey: string := "krate"
  const NewKey: string := "crate"

  /** The key a field is stored under after shaping. */
  function RenameKey(k: string): string
  {
    if k == OldKey then NewKey else k
  }

  /**
   * The input key whose value ends up under output key `k`. The fields are
   * re-collected in ascending key order and a later insertion under an existing
   * key replaces the earlier value; "crate" sorts before "krate", so when an
   * object holds both, the value that came from "krate" wins.
   */
  function SourceKey(m: map<string, Json>, k: string): string
  {
    if k == NewKey && OldKey in m then OldKey else k
  }

  /** The keys of a shaped object. */
  function RenamedKeys(m: map<string, Json>): set<string>
  {
    set k | k in m :: RenameKey(k)
  }

  /** No object anywhere in `j` has the key "krate". */
  ghost predicate NoOldKey(j: Json)
  {
    match j
    case Array(items) => forall i :: 0 <= i < |items| ==> NoOldKey(items[i])
    case Object(fields) => OldKey !in fields && forall k :: k in fields ==> NoOldKey(fields[k])
    case _ => true
  }

  /** `fixup`: rename "krate" to "crate" in every object, at every depth. */
  function Fixup(j: Json): (r: Json)
    ensures NoOldKey(r)
  {
    match j
    case Object(fields) =>
      Object(map k | k in RenamedKeys(fields) :: Fixup(fields[SourceKey(fields, k)]))
    case Array(items) =>
      Array(seq(|items|, i requires 0 <= i < |items| => Fixup(items[i])))
    case _ => j
  }

  /**
   * On an object: the shaped keys are the input's with "krate" replaced by
   * "crate"; every other key keeps the shaped value of its own field; "crate"
   * holds the shaped value of "krate" when the input has it, and of its own
   * field otherwise.
   */
  lemma FixupObject(fields: map<string, Json>)
    ensures Fixup(Object(fields)).Object?
    ensures var out := Fixup(Object(fields)).fields;
      && OldKey !in out
      && (NewKey in out <==> NewKey in fields || OldKey in fields)
      && (forall k :: k != OldKey && k != NewKey ==> (k in out <==> k in fields))
      && (forall k :: k in fields && k != OldKey && k != NewKey ==> out[k] == Fixup(fields[k]))
      && (OldKey in fields ==> out[NewKey] == Fixup(fields[OldKey]))
      && (OldKey !in fields && NewKey in fields ==> out[NewKey] == Fixup(fields[NewKey]))
  {
  }

  /** On an array: same length, and element i is the shaped element i. */
  lemma FixupArray(items: seq<Json>)
    ensures Fixup(Array(items)).Array?
    ensures |Fixup(Array(items)).items| == |items|
    ensures forall i :: 0 <= i < |items| ==> Fixup(Array(items)).items[i] == Fixup(items[i])
  {
  }

  /** Values that are neither objects nor arrays pass through unchanged. */
  lemma FixupScalar(j: Json)
    requires !j.Object? && !j.Array?
    ensures Fixup(j) == j
  {
  }

  /** A tree that has no "krate" key anywhere is left as it is. */
  lemma {:induction false} FixupLeavesShapedTree(j: Json)
    requires NoOldKey(j)
    ensures Fixup(j) == j
  {
    match j
    case Object(fields) =>
      var out := Fixup(j).fields;
      forall k | k in fields ensures NoOldKey(fields[k]) && RenameKey(k) == k {
      }
      assert RenamedKeys(fields) == fields.Keys;
      forall k | k in fields ensures out[k] == fields[k] {
        assert SourceKey(fields, k) == k;
        FixupLeavesShapedTree(fields[k]);
      }
      assert out == fields;
    case Array(items) =>
      var out := Fixup(j).items;
      forall i | 0 <= i < |items| ensures out[i] == items[i] {
        FixupLeavesShapedTree(items[i]);
      }
      assert out == items;
    case _ =>
  }

  /** Shaping twice is shaping once. */
  lemma {:induction false} FixupIdempotent(j: Json)
    ensures Fixup(Fixup(j)) == Fixup(j)
  {
    FixupLeavesShapedTree(Fixup(j));
  }

  /** "krate" below the top level is renamed too: a one-field object nested in an array. */
  lemma FixupNested(v: Json)
    requires NoOldKey(v)
    ensures Fixup(Array([Object(map[OldKey := v])])) == Array([Object(map[NewKey := v])])
  {
    FixupLeavesShapedTree(v);
    var inner := map[OldKey := v];
    FixupObject(inner);
    assert RenamedKeys(inner) == {NewKey};
    assert Fixup(Object(inner)) == Object(map[NewKey := v]);
    FixupArray([Object(inner)]);
  }

  const ContentType: string := "application/json; charset=utf-8"

  /**
   * `json_response`: shape `value`, render it with `render` (the text encoder,
   * which is not part of this model) and answer 200 with a JSON content type
   * and a `Content-Length` giving the body's length in decimal.
   */
  function JsonResponse(value: Json, render: Json -> seq<byte>): (r: Response)
    ensures r.status == (200, "OK")
    ensures r.body == render(Fixup(value))
    ensures r.headers.Keys == {"Content-Type", "Content-Length"}
    ensures r.headers["Content-Type"] == [ContentType]
    ensures |r.headers["Content-Length"]| == 1
    ensures AllDigits(r.headers["Content-Length"][0])
    ensures DecimalValue(r.headers["Content-Length"][0]) == |r.body|
    ensures WellFormed(r)
  {
    var body := render(Fixup(value));
    DecimalRoundTrip(|body|);
    Response(
      (200, "OK"),
      map["Content-Type" := [ContentType], "Content-Length" := [NatToString(|body|)]],
      body)
  }
}
