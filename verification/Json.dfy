/** Parsed JSON, as far as the consumers look into it. */
module Json {
  import opened Events

  /** `Id` is a string in UUID form, `Str` any other. Of a repeated key the last value counts, as in `JSON.parse`. */
  datatype Json =
    | Null
    | Bool(b: bool)
    | Num(n: real)
    | Str(text: string)
    | Id(uuid: Uuid)
    | Arr(elements: seq<Json>)
    | Obj(fields: map<string, Json>)

  function Field(j: Json, name: string): Option<Json> {
    if j.Obj? && name in j.fields then Some(j.fields[name]) else None
  }

  function IdField(j: Json, name: string): Option<Uuid> {
    match Field(j, name)
    case Some(Id(uuid)) => Some(uuid)
    case _ => None
  }

  /** ECMAScript cannot turn the value into a string. An object with a `toString` of its own cannot be: nothing in
      JSON is callable, and `valueOf` gives the object back. An array joins its elements; one nested deeper than the
      host's stack allows cannot be joined either. */
  predicate Unprintable(j: Json, depth: nat)
    decreases depth
  {
    match j
    case Obj(fields) => "toString" in fields
    case Arr(elements) => depth == 0 || exists e :: e in elements && Unprintable(e, depth - 1)
    case _ => false
  }

  /** `x` is found by going `k` arrays down. */
  predicate Nested(j: Json, k: nat, x: Json) {
    if k == 0 then j == x else j.Arr? && exists e :: e in j.elements && Nested(e, k - 1, x)
  }

  /** What makes a value unprintable, wherever it is: an object with a `toString`, or an array too deep to be joined. */
  predicate Bad(x: Json, k: nat, depth: nat) {
    k <= depth && ((x.Obj? && "toString" in x.fields) || (x.Arr? && k == depth))
  }

  lemma {:induction false} UnprintableExactlyWhen(j: Json, depth: nat)
    ensures Unprintable(j, depth) <==> exists k: nat, x :: Nested(j, k, x) && Bad(x, k, depth)
    decreases depth
  {
    if j.Arr? && depth > 0 {
      if e :| e in j.elements && Unprintable(e, depth - 1) {
        UnprintableExactlyWhen(e, depth - 1);
        var k: nat, x :| Nested(e, k, x) && Bad(x, k, depth - 1);
        assert Nested(j, k + 1, x) && Bad(x, k + 1, depth);
      }
      if k: nat, x :| Nested(j, k, x) && Bad(x, k, depth) {
        assert k > 0;
        var e :| e in j.elements && Nested(e, k - 1, x);
        assert Bad(x, k - 1, depth - 1);
        UnprintableExactlyWhen(e, depth - 1);
      }
    } else {
      assert Nested(j, 0, j);
      assert Unprintable(j, depth) <==> Bad(j, 0, depth);
      assert !j.Arr? ==> forall k: nat, x :: Nested(j, k, x) ==> k == 0;
    }
  }

  /** Reading `eventId` off the value and printing it throws. */
  predicate Unloggable(j: Json, depth: nat) {
    j.Null? || (Field(j, "eventId").Some? && Unprintable(Field(j, "eventId").value, depth))
  }

  /** The handlers get as far as the database: the payload can be taken apart. */
  predicate HasPayload(j: Json) {
    Field(j, "payload").Some? && !Field(j, "payload").value.Null?
  }

  function EventIdOf(j: Json): Option<Uuid> {
    IdField(j, "eventId")
  }

  function OrderIdOf(j: Json): Option<Uuid> {
    if HasPayload(j) then IdField(Field(j, "payload").value, "orderId") else None
  }
}
