/** The status-tagged carrier of lib/cuban_linx/payload.rb: a status, the
    `messages` hash (always seeded with a `warnings` Set) and the `errors`
    hash, with the accessors steps use on it. */
module Payloads {
  import opened Values
  import opened Failures

  datatype Status = Ok | NoOp | Error

  /** The three valid status symbols, `VALID_STATUSES`. */
  const StatusNames: set<string> := {"ok", "no_op", "error"}

  /** The key under which warnings accumulate. */
  const Warnings: Key := "warnings"

  function StatusName(s: Status): string
  {
    match s
    case Ok => "ok"
    case NoOp => "no_op"
    case Error => "error"
  }

  /** The Ruby symbol for a status, as `handle` writes it. */
  function Tag(s: Status): Atom
  {
    Sym(StatusName(s))
  }

  /** Only Strings and Symbols answer `to_sym`. */
  predicate RespondsToSym(a: Atom)
  {
    a.Sym? || a.Str?
  }

  function ToSym(a: Atom): string
    requires RespondsToSym(a)
  {
    if a.Sym? then a.name else a.s
  }

  predicate IsStatusTag(a: Atom)
  {
    RespondsToSym(a) && ToSym(a) in StatusNames
  }

  /** `determine_and_validate`: the received status, converted with
      `to_sym`, must be one of the valid statuses. */
  function ValidateStatus(raw: Atom): (r: Result<Status>)
    ensures r.Success? <==> IsStatusTag(raw)
    ensures r.Success? ==> StatusName(r.value) == ToSym(raw)
    ensures !RespondsToSym(raw) ==> r == Failure(NoMethodError("to_sym"))
    ensures RespondsToSym(raw) && !IsStatusTag(raw) ==> r == Failure(InvalidStatusError(raw))
  {
    if !RespondsToSym(raw) then Failure(NoMethodError("to_sym"))
    else
      var name := ToSym(raw);
      if name == "ok" then Success(Ok)
      else if name == "no_op" then Success(NoOp)
      else if name == "error" then Success(Error)
      else Failure(InvalidStatusError(raw))
  }

  /** Writing a status out as its symbol and validating it gives it back. */
  lemma TagRoundTrip(s: Status)
    ensures ValidateStatus(Tag(s)) == Success(s)
  {
  }

  predicate HasWarningSet(h: Hash)
  {
    Warnings in h && h[Warnings].SetOf?
  }

  /** The seeding done by the constructor: `messages` merged with
      `{warnings: Set.new}` through the merge block. */
  function Seed(h: Hash): (r: Hash)
    ensures r.Keys == h.Keys + {Warnings}
    ensures forall k :: k in h && k != Warnings ==> r[k] == h[k]
    ensures r[Warnings] == (if HasWarningSet(h) then h[Warnings] else SetOf({}))
  {
    assert HasWarningSet(h) ==> h[Warnings].elems + {} == h[Warnings].elems;
    MergeHash(h, map[Warnings := SetOf({})])
  }

  /** Seeding a hash that already holds a warnings Set changes nothing. */
  lemma SeedIdempotent(h: Hash)
    requires HasWarningSet(h)
    ensures Seed(h) == h
  {
  }

  /** Merging into a hash that holds a warnings Set keeps it a Set, so the
      constructor's re-seeding of a merged hash changes nothing. */
  lemma MergeIntoSeeded(h: Hash, additions: Hash)
    requires HasWarningSet(h)
    ensures HasWarningSet(MergeHash(h, additions))
    ensures Seed(MergeHash(h, additions)) == MergeHash(h, additions)
  {
    if Warnings in additions {
      MergeKeepsAccumulator(h[Warnings], additions[Warnings]);
    }
    SeedIdempotent(MergeHash(h, additions));
  }

  datatype Payload = Payload(status: Status, messages: Hash, errors: Hash)

  /** The state every constructed payload is in. */
  predicate Seeded(p: Payload)
  {
    HasWarningSet(p.messages)
  }

  /** `Payload.new(status, messages, errors)`. */
  function New(status: Atom, messages: Hash, errors: Hash): (r: Result<Payload>)
    ensures r.Success? <==> IsStatusTag(status)
    ensures r.Failure? ==> r.error == (if RespondsToSym(status) then InvalidStatusError(status) else NoMethodError("to_sym"))
    ensures r.Success? ==> StatusName(r.value.status) == ToSym(status)
    ensures r.Success? ==> r.value.messages.Keys == messages.Keys + {Warnings}
    ensures r.Success? ==> forall k :: k in messages && k != Warnings ==> r.value.messages[k] == messages[k]
    ensures r.Success? ==> r.value.messages[Warnings] == (if HasWarningSet(messages) then messages[Warnings] else SetOf({}))
    ensures r.Success? ==> r.value.errors == errors
  {
    var s :- ValidateStatus(status);
    Success(Payload(s, Seed(messages), errors))
  }

  /** Constructing a payload always leaves a warnings Set in `messages`. */
  lemma NewIsSeeded(status: Atom, messages: Hash, errors: Hash)
    requires IsStatusTag(status)
    ensures New(status, messages, errors).Success?
    ensures Seeded(New(status, messages, errors).value)
    ensures Warnings !in messages ==> New(status, messages, errors).value.messages[Warnings] == SetOf({})
  {
  }

  /** A fallback for `fetch`: none, a default value, a block given the key,
      or both a default and a block, where the block supersedes the default. */
  datatype Fallback =
    | NoFallback
    | Default(value: Value)
    | Block(compute: Key -> Value)
    | DefaultAndBlock(value: Value, compute: Key -> Value)

  /** `fetch`: `Hash#fetch` on `messages`. */
  function Fetch(p: Payload, key: Key, fallback: Fallback): (r: Result<Value>)
    ensures key in p.messages ==> r == Success(p.messages[key])
    ensures key !in p.messages && fallback.NoFallback? ==> r == Failure(KeyError(key))
    ensures key !in p.messages && fallback.Default? ==> r == Success(fallback.value)
    ensures key !in p.messages && fallback.Block? ==> r == Success(fallback.compute(key))
    ensures key !in p.messages && fallback.DefaultAndBlock? ==> r == Success(fallback.compute(key))
    ensures r.Failure? <==> key !in p.messages && fallback.NoFallback?
  {
    if key in p.messages then Success(p.messages[key])
    else
      match fallback
      case NoFallback => Failure(KeyError(key))
      case Default(v) => Success(v)
      case Block(f) => Success(f(key))
      case DefaultAndBlock(_, f) => Success(f(key))
  }

  /** `delete`: the removed value and the payload as it is afterwards. */
  function Delete(p: Payload, key: Key): (r: Result<(Value, Payload)>)
    ensures r.Success? <==> key in p.messages
    ensures r.Failure? ==> r.error == KeyError(key)
    ensures r.Success? ==> r.value.0 == p.messages[key]
    ensures r.Success? ==> r.value.1.status == p.status && r.value.1.errors == p.errors
    ensures r.Success? ==> r.value.1.messages.Keys == p.messages.Keys - {key}
    ensures r.Success? ==> forall k :: k in r.value.1.messages ==> r.value.1.messages[k] == p.messages[k]
  {
    if key !in p.messages then Failure(KeyError(key))
    else Success((p.messages[key], p.(messages := p.messages - {key})))
  }

  /** A deleted key is gone: a fetch with a default now yields the default
      instead of the old value, a fetch without one raises, and deleting it
      again raises. */
  lemma DeleteThenFetch(p: Payload, key: Key, default: Value)
    requires key in p.messages
    ensures Fetch(p, key, Default(default)) == Success(p.messages[key])
    ensures var after := Delete(p, key).value.1;
      && Fetch(after, key, Default(default)) == Success(default)
      && Fetch(after, key, NoFallback) == Failure(KeyError(key))
      && Delete(after, key) == Failure(KeyError(key))
  {
  }

  /** `add`: the new messages hash, `messages` merged with `additions`. */
  function Add(p: Payload, additions: Hash): (r: Hash)
    ensures r.Keys == p.messages.Keys + additions.Keys
    ensures forall k :: k in p.messages && k !in additions ==> r[k] == p.messages[k]
    ensures forall k :: k in additions && (k !in p.messages || !p.messages[k].SetOf?) ==> r[k] == additions[k]
    ensures forall k :: k in additions && k in p.messages && p.messages[k].SetOf? ==>
      r[k] == SetOf(p.messages[k].elems + Contribution(additions[k]))
    ensures Seeded(p) ==> HasWarningSet(r) && p.messages[Warnings].elems <= r[Warnings].elems
  {
    MergeHash(p.messages, additions)
  }

  /** `add_errors`: the new errors hash, `errors` merged with `additions`. */
  function AddErrors(p: Payload, additions: Hash): (r: Hash)
    ensures r.Keys == p.errors.Keys + additions.Keys
    ensures forall k :: k in p.errors && k !in additions ==> r[k] == p.errors[k]
    ensures forall k :: k in additions && (k !in p.errors || !p.errors[k].SetOf?) ==> r[k] == additions[k]
    ensures forall k :: k in additions && k in p.errors && p.errors[k].SetOf? ==>
      r[k] == SetOf(p.errors[k].elems + Contribution(additions[k]))
  {
    MergeHash(p.errors, additions)
  }

  /** `add_warning(message)` for a scalar message: the hash it returns and
      the payload afterwards. The merge block inserts into the warnings Set
      in place, so a seeded payload ends up holding the returned hash; an
      unseeded one is left as it was. */
  function AddWarning(p: Payload, message: Atom): (r: (Hash, Payload))
    ensures r.0 == Add(p, map[Warnings := Scalar(message)])
    ensures r.1.status == p.status && r.1.errors == p.errors
    ensures Seeded(p) ==> r.1.messages == p.messages[Warnings := SetOf(p.messages[Warnings].elems + {message})]
    ensures Seeded(p) ==> r.1.messages == r.0
    ensures !Seeded(p) ==> r.1 == p
  {
    var returned := Add(p, map[Warnings := Scalar(message)]);
    if Seeded(p) then (returned, p.(messages := returned)) else (returned, p)
  }

  /** Two warnings added one after the other are both kept, next to
      everything that was there before. */
  lemma AddWarningTwice(p: Payload, first: Atom, second: Atom)
    requires Seeded(p)
    ensures var q := AddWarning(AddWarning(p, first).1, second).1;
      && Seeded(q)
      && q.messages[Warnings].elems == p.messages[Warnings].elems + {first, second}
  {
  }

  /** The warnings accumulator is a Set: adding the same warning twice is
      the same as adding it once. */
  lemma AddWarningIdempotent(p: Payload, message: Atom)
    ensures AddWarning(AddWarning(p, message).1, message).1 == AddWarning(p, message).1
  {
    if Seeded(p) {
      var once := AddWarning(p, message).1;
      assert once.messages[Warnings].elems + {message} == once.messages[Warnings].elems;
    }
  }

  /** `warnings`: `fetch(:warnings)` without a fallback. */
  function GetWarnings(p: Payload): (r: Result<Value>)
    ensures Warnings in p.messages ==> r == Success(p.messages[Warnings])
    ensures Seeded(p) ==> r.Success? && r.value.SetOf?
    ensures Warnings !in p.messages ==> r == Failure(KeyError(Warnings))
  {
    Fetch(p, Warnings, NoFallback)
  }

  /** A seeded payload is what the constructor makes of its own parts. */
  lemma Rebuild(p: Payload)
    ensures Seeded(p) ==> New(Tag(p.status), p.messages, p.errors) == Success(p)
  {
    if Seeded(p) {
      TagRoundTrip(p.status);
      SeedIdempotent(p.messages);
    }
  }

  /** The payload the constructor builds from a valid status and two hashes. */
  lemma NewFrom(s: Status, messages: Hash, errors: Hash)
    ensures New(Tag(s), messages, errors) == Success(Payload(s, Seed(messages), errors))
  {
    TagRoundTrip(s);
  }

  /** `tuple`: the arguments that rebuild the payload. */
  function Tuple(p: Payload): (r: (Status, Hash, Hash))
    ensures Seeded(p) ==> New(Tag(r.0), r.1, r.2) == Success(p)
  {
    Rebuild(p);
    (p.status, p.messages, p.errors)
  }

  /** The tuple of a freshly constructed payload: the status, the messages
      with warnings seeded, and the errors exactly as supplied. */
  lemma TupleOfNew(s: Status, messages: Hash, errors: Hash)
    ensures New(Tag(s), messages, errors).Success?
    ensures Tuple(New(Tag(s), messages, errors).value) == (s, Seed(messages), errors)
  {
    TagRoundTrip(s);
  }

  datatype Report = Report(messages: Hash, errors: Hash)

  /** `as_result`: `[status, {messages:, errors:}]`. */
  function AsResult(p: Payload): (r: (Status, Report))
    ensures r.0 == Tuple(p).0 && r.1 == Report(Tuple(p).1, Tuple(p).2)
    ensures Seeded(p) ==> New(Tag(r.0), r.1.messages, r.1.errors) == Success(p)
  {
    Rebuild(p);
    (p.status, Report(p.messages, p.errors))
  }

  /** `as_result` of a freshly constructed payload: the status, with the
      seeded messages and the errors exactly as supplied. */
  lemma AsResultOfNew(s: Status, messages: Hash, errors: Hash)
    ensures New(Tag(s), messages, errors).Success?
    ensures AsResult(New(Tag(s), messages, errors).value) == (s, Report(Seed(messages), errors))
  {
    TagRoundTrip(s);
  }
}
