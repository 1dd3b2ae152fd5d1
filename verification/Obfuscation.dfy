/**
 Obfuscating an audit event before it is logged: every value becomes three asterisks, except null and
 undefined, and except whatever stands under a key that may be shown.
 */
module Obfuscation {

  datatype Field = Field(key: string, value: Json)

  datatype Json =
    | Undefined
    | Null
    | Bool(b: bool)
    | Number(n: real)
    | Text(s: string)
    | Array(items: seq<Json>)
    | Object(fields: seq<Field>)

  predicate Container(j: Json) { j.Array? || j.Object? }

  predicate Absent(j: Json) { j.Null? || j.Undefined? }

  function Obfuscate(j: Json, show: seq<string>): Json {
    match j
    case Array(items) => Array(seq(|items|, i requires 0 <= i < |items| => Obfuscate(items[i], show)))
    case Object(fields) => Object(seq(|fields|, i requires 0 <= i < |fields| => ObfuscateField(fields[i], show)))
    case _ => if Absent(j) then j else Text("***")
  }

  function ObfuscateField(f: Field, show: seq<string>): Field {
    if f.key in show then f else Field(f.key, Obfuscate(f.value, show))
  }

  /** The two differ at most in values that may not be shown: same shape, same keys, same places without a value. */
  ghost predicate Alike(a: Json, b: Json, show: seq<string>) {
    match a
    case Array(items) => b.Array? && |b.items| == |items| && forall i | 0 <= i < |items| :: Alike(items[i], b.items[i], show)
    case Object(fields) =>
      && b.Object? && |b.fields| == |fields|
      && forall i | 0 <= i < |fields| ::
           && b.fields[i].key == fields[i].key
           && (if fields[i].key in show then b.fields[i].value == fields[i].value
               else Alike(fields[i].value, b.fields[i].value, show))
    case _ => if Absent(a) then b == a else !Container(b) && !Absent(b)
  }

  predicate Within(a: seq<string>, b: seq<string>) {
    forall key | key in a :: key in b
  }

  lemma {:induction false} AlikeSame(a: Json, b: Json, show: seq<string>)
    requires Alike(a, b, show)
    ensures Obfuscate(a, show) == Obfuscate(b, show)
    decreases a
  {
    match a
    case Array(items) =>
      forall i | 0 <= i < |items| ensures Obfuscate(items[i], show) == Obfuscate(b.items[i], show) {
        AlikeSame(items[i], b.items[i], show);
      }
    case Object(fields) =>
      forall i | 0 <= i < |fields| ensures ObfuscateField(fields[i], show) == ObfuscateField(b.fields[i], show) {
        if fields[i].key !in show { AlikeSame(fields[i].value, b.fields[i].value, show); }
      }
    case _ =>
  }

  lemma {:induction false} SameAlike(a: Json, b: Json, show: seq<string>)
    requires Obfuscate(a, show) == Obfuscate(b, show)
    ensures Alike(a, b, show)
    decreases a
  {
    match a
    case Array(items) =>
      var x, y := Obfuscate(a, show).items, Obfuscate(b, show).items;
      forall i | 0 <= i < |items| ensures Alike(items[i], b.items[i], show) {
        assert x[i] == y[i];
        SameAlike(items[i], b.items[i], show);
      }
    case Object(fields) =>
      var x, y := Obfuscate(a, show).fields, Obfuscate(b, show).fields;
      forall i | 0 <= i < |fields|
        ensures b.fields[i].key == fields[i].key
        ensures if fields[i].key in show then b.fields[i].value == fields[i].value
                else Alike(fields[i].value, b.fields[i].value, show)
      {
        assert x[i] == y[i];
        if fields[i].key !in show { SameAlike(fields[i].value, b.fields[i].value, show); }
      }
    case _ =>
  }

  /** What a log can tell about an event is exactly its shape, its empty places, and what stands under a shown key. */
  lemma RevealsExactly(a: Json, b: Json, show: seq<string>)
    ensures Obfuscate(a, show) == Obfuscate(b, show) <==> Alike(a, b, show)
  {
    if Alike(a, b, show) {
      AlikeSame(a, b, show);
    }
    if Obfuscate(a, show) == Obfuscate(b, show) {
      SameAlike(a, b, show);
    }
  }

  /** Obfuscating with one list of shown keys and with a part of that list, in either order, is obfuscating with the part. */
  lemma {:induction false} Composes(j: Json, a: seq<string>, b: seq<string>)
    requires Within(a, b)
    ensures Obfuscate(Obfuscate(j, b), a) == Obfuscate(j, a)
    ensures Obfuscate(Obfuscate(j, a), b) == Obfuscate(j, a)
    decreases j
  {
    match j
    case Array(items) =>
      forall i | 0 <= i < |items|
        ensures Obfuscate(Obfuscate(items[i], b), a) == Obfuscate(items[i], a) == Obfuscate(Obfuscate(items[i], a), b)
      {
        Composes(items[i], a, b);
      }
    case Object(fields) =>
      forall i | 0 <= i < |fields|
        ensures ObfuscateField(ObfuscateField(fields[i], b), a) == ObfuscateField(fields[i], a)
        ensures ObfuscateField(ObfuscateField(fields[i], a), b) == ObfuscateField(fields[i], a)
      {
        Composes(fields[i].value, a, b);
      }
    case _ =>
  }

  /** Obfuscating twice is obfuscating once; and an event and its obfuscation differ in hidden values only. */
  lemma ObfuscateKeeps(j: Json, show: seq<string>)
    ensures Obfuscate(Obfuscate(j, show), show) == Obfuscate(j, show)
    ensures Alike(j, Obfuscate(j, show), show)
  {
    Composes(j, show, show);
    SameAlike(j, Obfuscate(j, show), show);
  }

  /** Nothing is shown: outside shown keys every value is three asterisks, or there is none. */
  ghost predicate Hidden(j: Json, show: seq<string>) {
    match j
    case Array(items) => forall i | 0 <= i < |items| :: Hidden(items[i], show)
    case Object(fields) => forall i | 0 <= i < |fields| :: fields[i].key in show || Hidden(fields[i].value, show)
    case _ => Absent(j) || j == Text("***")
  }

  lemma {:induction false} HiddenStays(j: Json, show: seq<string>)
    requires Hidden(j, show)
    ensures Obfuscate(j, show) == j
    decreases j
  {
    match j
    case Array(items) =>
      forall i | 0 <= i < |items| ensures Obfuscate(items[i], show) == items[i] { HiddenStays(items[i], show); }
    case Object(fields) =>
      forall i | 0 <= i < |fields| ensures ObfuscateField(fields[i], show) == fields[i] {
        if fields[i].key !in show { HiddenStays(fields[i].value, show); }
      }
    case _ =>
  }

  lemma {:induction false} ObfuscatedHides(j: Json, show: seq<string>)
    ensures Hidden(Obfuscate(j, show), show)
    decreases j
  {
    match j
    case Array(items) =>
      forall i | 0 <= i < |items| ensures Hidden(Obfuscate(items[i], show), show) { ObfuscatedHides(items[i], show); }
    case Object(fields) =>
      forall i | 0 <= i < |fields|
        ensures fields[i].key in show || Hidden(ObfuscateField(fields[i], show).value, show)
      {
        if fields[i].key !in show { ObfuscatedHides(fields[i].value, show); }
      }
    case _ =>
  }

  /** The obfuscation of an event is the one thing that differs from it in hidden values only and hides them all. */
  lemma ObfuscatesExactly(j: Json, show: seq<string>, r: Json)
    ensures r == Obfuscate(j, show) <==> Alike(j, r, show) && Hidden(r, show)
  {
    ObfuscateKeeps(j, show);
    ObfuscatedHides(j, show);
    if Alike(j, r, show) && Hidden(r, show) {
      AlikeSame(j, r, show);
      HiddenStays(r, show);
    }
  }
}
