/** Ruby values as they flow through a payload: opaque scalars, Sets and
    Arrays, and the Hash (symbol-keyed map) that holds them, together with
    the one per-key merge rule every hash merge goes through. */
module Values {

  /** Any Ruby object that is neither a Set nor an Array. `Obj` stands for
      every other object (a Hash, a Proc, a record), identified opaquely. */
  datatype Atom =
    | Nil
    | Bool(b: bool)
    | Int(i: int)
    | Str(s: string)
    | Sym(name: string)
    | Obj(id: nat)

  /** A value stored under a key: a scalar, a Set or an Array. */
  datatype Value =
    | Scalar(atom: Atom)
    | SetOf(elems: set<Atom>)
    | ListOf(items: seq<Atom>)

  /** Hash keys are Ruby symbols, written here by their names. Ruby's Hash
      equality ignores insertion order, so a map is enough. */
  type Key = string

  type Hash = map<Key, Value>

  /** The set of atoms occurring in an Array. */
  function Elements(xs: seq<Atom>): set<Atom>
  {
    set a | a in xs
  }

  /** The atoms `v` adds when it is merged into a Set accumulator: the
      elements of a collection, or the scalar itself. */
  function Contribution(v: Value): set<Atom>
  {
    match v
    case Scalar(a) => {a}
    case SetOf(s) => s
    case ListOf(xs) => Elements(xs)
  }

  /** The merge block of lib/cuban_linx/payload.rb, applied when `incoming`
      is written over `existing` under the same key: a Set accumulates
      whatever arrives (union with a Set or an Array, insertion of a scalar);
      anything else is overwritten by the incoming value. */
  function MergeValue(existing: Value, incoming: Value): (r: Value)
    ensures existing.SetOf? ==> r == SetOf(existing.elems + Contribution(incoming))
    ensures !existing.SetOf? ==> r == incoming
  {
    match (existing, incoming)
    case (SetOf(s), ListOf(xs)) => SetOf(s + Elements(xs))
    case (SetOf(s), SetOf(t)) => SetOf(s + t)
    case (SetOf(s), Scalar(a)) => SetOf(s + {a})
    case _ => incoming
  }

  /** `Hash#merge` with the merge block: the block is consulted only for
      keys present on both sides. */
  function MergeHash(existing: Hash, incoming: Hash): (r: Hash)
    ensures r.Keys == existing.Keys + incoming.Keys
    ensures forall k :: k in existing && k !in incoming ==> r[k] == existing[k]
    ensures forall k :: k in incoming && k !in existing ==> r[k] == incoming[k]
    ensures forall k :: k in existing && k in incoming ==> r[k] == MergeValue(existing[k], incoming[k])
  {
    map k | k in existing.Keys + incoming.Keys ::
      if k in existing && k in incoming then MergeValue(existing[k], incoming[k])
      else if k in incoming then incoming[k]
      else existing[k]
  }

  /** A Set accumulator never loses an element and never stops being a Set. */
  lemma MergeKeepsAccumulator(existing: Value, incoming: Value)
    requires existing.SetOf?
    ensures MergeValue(existing, incoming).SetOf?
    ensures existing.elems <= MergeValue(existing, incoming).elems
    ensures Contribution(incoming) <= MergeValue(existing, incoming).elems
  {
  }

  /** Merging nothing changes nothing. */
  lemma MergeHashEmpty(h: Hash)
    ensures MergeHash(h, map[]) == h
    ensures MergeHash(map[], h) == h
  {
    assert MergeHash(h, map[]).Keys == h.Keys;
    assert MergeHash(map[], h).Keys == h.Keys;
  }
}
