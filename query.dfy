/**
 * The where-clauses the services hand to the store, and what it means for a
 * row to satisfy one. The semantics is the reference the filter builders are
 * proved against.
 */
module Query {
  import opened Common

  datatype Mode = Default | Insensitive

  /** The filter placed under one key of a where-object. */
  datatype Clause =
    | Contains(term: string, mode: Mode)          // { contains: term, mode }
    | Equals(value: Value)                        // { equals: value }
    | NotEquals(value: Value)                     // { not: value }
    | Between(gte: Option<int>, lte: Option<int>) // { gte, lte }; an undefined bound is left open
    | Relation(where: Where)                      // the related record must satisfy `where`
    | AnyOf(alternatives: seq<Where>)             // the list under the key OR
    | AllOf(conjuncts: seq<Where>)                // the list under the key AND

  /** A where-object: every key's clause must hold. */
  datatype Where = Where(fields: map<string, Clause>)

  /** A row of a table, with related records nested as objects. */
  type Row = map<string, Value>

  const Everything: Where := Where(map[])

  /** `needle` occurs in `haystack` letter for letter. */
  predicate ContainsExact(haystack: string, needle: string)
  {
    exists i :: 0 <= i <= |haystack| - |needle| && haystack[i..] [..|needle|] == needle
  }

  /** The text column `key` of `r` contains `t`, ignoring case: the meaning of an insensitive `contains`. */
  predicate TextMatches(r: Row, key: string, t: string)
  {
    Get(r, key).Str? && ContainsInsensitive(Get(r, key).s, t)
  }

  predicate Holds(w: Where, r: Row)
    decreases w
  {
    forall k :: k in w.fields ==> ClauseHolds(k, w.fields[k], r)
  }

  predicate ClauseHolds(key: string, c: Clause, r: Row)
    decreases c
  {
    var v := Get(r, key);
    match c
    case Contains(t, mode) =>
      v.Str? && (if mode == Insensitive then ContainsInsensitive(v.s, t) else ContainsExact(v.s, t))
    case Equals(x) => v == x
    case NotEquals(x) => v != Null && v != x
    case Between(lo, hi) =>
      (lo.Some? ==> v.Num? && lo.value <= v.n) && (hi.Some? ==> v.Num? && v.n <= hi.value)
    case Relation(w) => v.Obj? && Holds(w, v.fields)
    case AnyOf(ws) => exists i :: 0 <= i < |ws| && Holds(ws[i], r)
    case AllOf(ws) => forall i :: 0 <= i < |ws| ==> Holds(ws[i], r)
  }

  /** A where-object with a single key means that key's clause. */
  lemma HoldsSingle(key: string, c: Clause, r: Row)
    ensures Holds(Where(map[key := c]), r) <==> ClauseHolds(key, c, r)
  {
    assert key in Where(map[key := c]).fields;
  }

  /** The empty where-object `{}` admits every row. */
  lemma EverythingHolds(r: Row)
    ensures Holds(Everything, r)
  {
  }

  /** A row satisfies all of a list of conditions. */
  predicate HoldsAll(ws: seq<Where>, r: Row)
  {
    forall i :: 0 <= i < |ws| ==> Holds(ws[i], r)
  }

  /**
   * `{ AND: ws.length > 0 ? ws : undefined }`: an undefined AND is dropped, so
   * the where-object is `{}` for an empty list.
   */
  function AndOrNothing(ws: seq<Where>): (w: Where)
    ensures ws == [] ==> w == Everything
    ensures ws != [] ==> w.fields.Keys == {"AND"} && w.fields["AND"] == AllOf(ws)
  {
    if ws == [] then Everything else Where(map["AND" := AllOf(ws)])
  }

  /** Either way the list is read as a conjunction. */
  lemma AndOrNothingMeaning(ws: seq<Where>, r: Row)
    ensures Holds(AndOrNothing(ws), r) <==> HoldsAll(ws, r)
  {
    if ws != [] {
      HoldsSingle("AND", AllOf(ws), r);
    }
  }

  /** The sequence of conditions with `x` pushed is a conjunction with `x`. */
  lemma HoldsAllPush(ws: seq<Where>, x: Where, r: Row)
    ensures HoldsAll(ws + [x], r) <==> HoldsAll(ws, r) && Holds(x, r)
  {
    assert (ws + [x])[|ws|] == x;
    assert forall i :: 0 <= i < |ws| ==> (ws + [x])[i] == ws[i];
  }
}
