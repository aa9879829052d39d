/**
  Canonical JSON trees (internal/run/checkpoint.go): every number in a protected result is
  rewritten, everything else is kept. A tree is what the decoder yields; encoding a tree
  back to bytes (sorted keys) is not part of this model.
*/
module CheckpointJson {
  import opened Wrappers
  import N = CheckpointNumber

  datatype Json =
    | Null
    | Bool(truth: bool)
    | Text(text: string)
    | Number(number: string)
    | Array(items: seq<Json>)
    | Object(fields: map<string, Json>)

  /** None is the rejection of a tree that holds an unacceptable number. */
  function Normalized(v: Json): Option<Json> {
    match v
    case Number(number) => if N.Normalize(number).None? then None else Some(Number(N.Normalize(number).value))
    case Array(items) =>
      if exists i :: 0 <= i < |items| && Normalized(items[i]).None? then None
      else Some(Array(seq(|items|, i requires 0 <= i < |items| => Normalized(items[i]).value)))
    case Object(fields) =>
      if exists k :: k in fields && Normalized(fields[k]).None? then None
      else Some(Object(map k | k in fields :: Normalized(fields[k]).value))
    case _ => Some(v)
  }

  /** The walk that rewrites arrays and objects entry by entry and gives up at the first rejection. */
  method NormalizeTree(v: Json) returns (result: Option<Json>)
    ensures result == Normalized(v)
    decreases v
  {
    match v
    case Number(number) =>
      var text := N.Normalize(number);
      return if text.None? then None else Some(Number(text.value));
    case Array(items) =>
      var rewritten := items;
      for i := 0 to |items|
        invariant |rewritten| == |items|
        invariant forall j :: 0 <= j < i ==> Normalized(items[j]) == Some(rewritten[j])
      {
        var child := NormalizeTree(items[i]);
        if child.None? {
          return None;
        }
        rewritten := rewritten[i := child.value];
      }
      assert Normalized(v).Some? && Normalized(v).value.items == rewritten;
      return Some(Array(rewritten));
    case Object(fields) =>
      var rewritten, pending := fields, fields.Keys;
      while pending != {}
        invariant pending <= fields.Keys && rewritten.Keys == fields.Keys
        invariant forall k :: k in fields && k !in pending ==> Normalized(fields[k]) == Some(rewritten[k])
        decreases |pending|
      {
        var key :| key in pending;
        var child := NormalizeTree(fields[key]);
        if child.None? {
          return None;
        }
        rewritten, pending := rewritten[key := child.value], pending - {key};
      }
      assert Normalized(v).Some? && Normalized(v).value.fields == rewritten;
      return Some(Object(rewritten));
    case _ =>
      return Some(v);
  }

  /** Every number in the tree is one the grammar admits. */
  ghost predicate Numeric(v: Json) {
    match v
    case Number(number) => exists l :: N.WellFormed(l) && N.Text(l) == number
    case Array(items) => forall i :: 0 <= i < |items| ==> Numeric(items[i])
    case Object(fields) => forall k :: k in fields ==> Numeric(fields[k])
    case _ => true
  }

  /** The same tree up to the way its numbers are written. */
  ghost predicate SameMeaning(a: Json, b: Json) {
    match (a, b)
    case (Number(x), Number(y)) => N.TextValue(x) == N.TextValue(y)
    case (Array(xs), Array(ys)) => |xs| == |ys| && forall i :: 0 <= i < |xs| ==> SameMeaning(xs[i], ys[i])
    case (Object(f), Object(g)) => f.Keys == g.Keys && forall k :: k in f ==> SameMeaning(f[k], g[k])
    case _ => a == b
  }

  lemma {:induction false} NormalizedExact(v: Json)
    requires Numeric(v) && Normalized(v).Some?
    ensures Numeric(Normalized(v).value) && SameMeaning(v, Normalized(v).value)
    ensures Normalized(Normalized(v).value) == Normalized(v)
  {
    var w := Normalized(v).value;
    match v
    case Number(number) =>
      var l :| N.WellFormed(l) && N.Text(l) == number;
      N.NormalizeExact(l);
      N.CanonizedExact(l);
      N.NormalizeIdempotent(l);
    case Array(items) =>
      forall i | 0 <= i < |items| ensures Numeric(w.items[i]) && SameMeaning(items[i], w.items[i])
        ensures Normalized(w.items[i]) == Some(w.items[i])
      {
        NormalizedExact(items[i]);
      }
      assert Normalized(w).value.items == w.items;
    case Object(fields) =>
      forall k | k in fields ensures Numeric(w.fields[k]) && SameMeaning(fields[k], w.fields[k])
        ensures Normalized(w.fields[k]) == Some(w.fields[k])
      {
        NormalizedExact(fields[k]);
      }
      assert Normalized(w).value.fields == w.fields;
    case _ =>
  }

  /** Two accepted trees have the same canonical form exactly when they mean the same. */
  lemma {:induction false} SameFormIffSameMeaning(a: Json, b: Json)
    requires Numeric(a) && Numeric(b) && Normalized(a).Some? && Normalized(b).Some?
    ensures Normalized(a) == Normalized(b) <==> SameMeaning(a, b)
  {
    match (a, b)
    case (Number(x), Number(y)) =>
      var l :| N.WellFormed(l) && N.Text(l) == x;
      var m :| N.WellFormed(m) && N.Text(m) == y;
      N.NormalizeExact(l);
      N.NormalizeExact(m);
      N.SameTextIffSameValue(l, m);
    case (Array(xs), Array(ys)) =>
      var u, w := Normalized(a).value.items, Normalized(b).value.items;
      if |xs| == |ys| {
        forall i | 0 <= i < |xs| ensures u[i] == w[i] <==> SameMeaning(xs[i], ys[i]) {
          SameFormIffSameMeaning(xs[i], ys[i]);
        }
        if SameMeaning(a, b) { assert u == w; }
      }
    case (Object(f), Object(g)) =>
      var u, w := Normalized(a).value.fields, Normalized(b).value.fields;
      assert u.Keys == f.Keys && w.Keys == g.Keys;
      if f.Keys == g.Keys {
        forall k | k in f ensures u[k] == w[k] <==> SameMeaning(f[k], g[k]) {
          SameFormIffSameMeaning(f[k], g[k]);
        }
        if SameMeaning(a, b) { assert u == w; }
      }
    case _ =>
  }
}
