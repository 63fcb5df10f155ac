/** The step adapter of lib/cuban_linx/collaborator.rb: it runs its step
    only on an `ok` payload and turns whatever the step returned into the
    next payload. */
module Collaborators {
  import opened Values
  import opened Failures
  import opened Payloads

  /** The shape of a step's return value, as `handle`'s `case/in` sees it. */
  datatype RawResult =
    /** Anything that is not an Array: a symbol, nil, true, an integer, a string. */
    | Bare(atom: Atom)
    /** A two-element Array whose second element is a Hash. */
    | Pair(tag: Atom, first: Hash)
    /** A three-element Array whose second and third elements are Hashes. */
    | Triple(tag: Atom, first: Hash, second: Hash)
    /** Any other Array. */
    | Unshaped

  /** What running a step leaves behind: the incoming payload's messages
      and errors as the step left them (a step may `delete` from or
      `add_warning` to its payload; it cannot change the status), and the
      value it returned. */
  datatype StepReturn = StepReturn(messages: Hash, errors: Hash, result: RawResult)

  /** A step, bound to its context; it may raise instead of returning. */
  type Step = Payload -> Result<StepReturn>

  datatype Collaborator = Collaborator(run: Step)

  predicate IsStatusSymbol(a: Atom)
  {
    a == Tag(Ok) || a == Tag(NoOp) || a == Tag(Error)
  }

  /** The return shapes `handle` accepts: `:ok` or nil alone, or a pair or
      a triple led by one of the three status symbols. */
  predicate Recognised(result: RawResult)
  {
    match result
    case Bare(a) => a == Tag(Ok) || a == Nil
    case Pair(tag, _) => IsStatusSymbol(tag)
    case Triple(tag, _, _) => IsStatusSymbol(tag)
    case Unshaped => false
  }

  /** `handle`: the arguments of the next `Payload.new`. A two-element
      result passes no errors, so the constructor's default `{}` applies. */
  function Handle(p: Payload, result: RawResult): (r: Result<(Atom, Hash, Hash)>)
    ensures r.Success? <==> Recognised(result)
    ensures r.Failure? ==> r.error == NoMatchingPatternError
    ensures r.Success? ==> IsStatusTag(r.value.0)
  {
    match result
    case Bare(a) =>
      if a == Tag(Ok) || a == Nil then
        var t := Tuple(p);
        Success((Tag(t.0), t.1, t.2))
      else Failure(NoMatchingPatternError)
    case Pair(tag, h) =>
      if tag == Tag(Ok) then Success((Tag(Ok), Add(p, h), p.errors))
      else if tag == Tag(NoOp) then Success((Tag(NoOp), Add(p, h), map[]))
      else if tag == Tag(Error) then Success((Tag(Error), p.messages, AddErrors(p, h)))
      else Failure(NoMatchingPatternError)
    case Triple(tag, m, e) =>
      if tag == Tag(Ok) then Success((Tag(Ok), Add(p, m), AddErrors(p, e)))
      else if tag == Tag(NoOp) then Success((Tag(NoOp), Add(p, m), AddErrors(p, e)))
      else if tag == Tag(Error) then Success((Tag(Error), Add(p, m), AddErrors(p, e)))
      else Failure(NoMatchingPatternError)
    case Unshaped => Failure(NoMatchingPatternError)
  }

  /** `Collaborator#call`. */
  function Call(c: Collaborator, p: Payload): (r: Result<Payload>)
    ensures p.status != Ok ==> r == Success(p)
    ensures p.status == Ok && c.run(p).Failure? ==> r == Failure(c.run(p).error)
    ensures p.status == Ok && c.run(p).Success? ==>
      (r.Success? <==> Recognised(c.run(p).value.result))
    ensures p.status == Ok && c.run(p).Success? && !Recognised(c.run(p).value.result) ==>
      r == Failure(NoMatchingPatternError)
    ensures p.status == Ok && r.Success? ==> Seeded(r.value)
  {
    match p.status
    case Ok =>
      var returned :- c.run(p);
      var args :- Handle(Payload(p.status, returned.messages, returned.errors), returned.result);
      New(args.0, args.1, args.2)
    case NoOp | Error => Success(p)
  }

  /** On a `no_op` or `error` payload the step is never run: which step the
      collaborator holds makes no difference. */
  lemma ShortCircuitIgnoresStep(c: Collaborator, d: Collaborator, p: Payload)
    requires p.status != Ok
    ensures Call(c, p) == Call(d, p) == Success(p)
  {
  }

  /** The normalisation table: the next payload for each of the seven
      recognised shapes, in terms of what the step left behind. */
  lemma CallNormalises(c: Collaborator, p: Payload)
    requires p.status == Ok && c.run(p).Success?
    ensures var ret := c.run(p).value;
      (ret.result == Bare(Tag(Ok)) || ret.result == Bare(Nil)) ==>
        Call(c, p) == Success(Payload(Ok, Seed(ret.messages), ret.errors))
    ensures var ret := c.run(p).value;
      forall h :: ret.result == Pair(Tag(Ok), h) ==>
        Call(c, p) == Success(Payload(Ok, Seed(MergeHash(ret.messages, h)), ret.errors))
    ensures var ret := c.run(p).value;
      forall m, e :: ret.result == Triple(Tag(Ok), m, e) ==>
        Call(c, p) == Success(Payload(Ok, Seed(MergeHash(ret.messages, m)), MergeHash(ret.errors, e)))
    ensures var ret := c.run(p).value;
      forall h :: ret.result == Pair(Tag(NoOp), h) ==>
        Call(c, p) == Success(Payload(NoOp, Seed(MergeHash(ret.messages, h)), map[]))
    ensures var ret := c.run(p).value;
      forall m, e :: ret.result == Triple(Tag(NoOp), m, e) ==>
        Call(c, p) == Success(Payload(NoOp, Seed(MergeHash(ret.messages, m)), MergeHash(ret.errors, e)))
    ensures var ret := c.run(p).value;
      forall m, e :: ret.result == Triple(Tag(Error), m, e) ==>
        Call(c, p) == Success(Payload(Error, Seed(MergeHash(ret.messages, m)), MergeHash(ret.errors, e)))
    ensures var ret := c.run(p).value;
      forall h :: ret.result == Pair(Tag(Error), h) ==>
        Call(c, p) == Success(Payload(Error, Seed(ret.messages), MergeHash(ret.errors, h)))
  {
    var ret := c.run(p).value;
    var after := Payload(Ok, ret.messages, ret.errors);
    match ret.result
    case Bare(_) => NewFrom(Ok, ret.messages, ret.errors);
    case Pair(tag, h) =>
      NewFrom(Ok, MergeHash(ret.messages, h), ret.errors);
      NewFrom(NoOp, MergeHash(ret.messages, h), map[]);
      NewFrom(Error, ret.messages, MergeHash(ret.errors, h));
    case Triple(tag, m, e) =>
      NewFrom(Ok, MergeHash(ret.messages, m), MergeHash(ret.errors, e));
      NewFrom(NoOp, MergeHash(ret.messages, m), MergeHash(ret.errors, e));
      NewFrom(Error, MergeHash(ret.messages, m), MergeHash(ret.errors, e));
    case Unshaped =>
  }

  /** Warnings a step has accumulated survive the normalisation of its
      result, whatever the step returned. */
  lemma CallKeepsWarnings(c: Collaborator, p: Payload)
    requires p.status == Ok && c.run(p).Success?
    requires HasWarningSet(c.run(p).value.messages)
    requires Call(c, p).Success?
    ensures c.run(p).value.messages[Warnings].elems <= Call(c, p).value.messages[Warnings].elems
  {
    var ret := c.run(p).value;
    CallNormalises(c, p);
    match ret.result
    case Bare(_) =>
    case Pair(_, h) =>
      if Warnings in h { MergeKeepsAccumulator(ret.messages[Warnings], h[Warnings]); }
    case Triple(_, m, _) =>
      if Warnings in m { MergeKeepsAccumulator(ret.messages[Warnings], m[Warnings]); }
    case Unshaped =>
  }

  /** Return values the pattern match refuses: booleans, integers, strings,
      a bare `:no_op`, a string "ok" in place of the symbol, and a tuple led
      by an unknown status. */
  lemma RefusedShapes(n: int, s: string, h: Hash, e: Hash)
    ensures !Recognised(Bare(Bool(true))) && !Recognised(Bare(Bool(false)))
    ensures !Recognised(Bare(Int(n))) && !Recognised(Bare(Str(s)))
    ensures !Recognised(Bare(Tag(NoOp))) && !Recognised(Pair(Str("ok"), h))
    ensures !Recognised(Triple(Sym("non_matching_status"), h, e))
  {
  }
}
