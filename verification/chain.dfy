/** The pipeline of lib/cuban_linx/chain.rb: step references resolved once
    into collaborators, then a left fold of those collaborators over a
    freshly seeded payload, projected with `as_result`. */
module Chains {
  import opened Values
  import opened Failures
  import opened Payloads
  import opened Collaborators

  /** An entry of the step list given to `Chain.new`: a method name to look
      up on the context, a Proc, or anything else. */
  datatype StepRef = Named(name: string) | Callable(proc: Step) | Unsupported

  /** The execution context, seen through its public methods that return
      steps: method name to step. */
  type Context = map<string, Step>

  datatype Chain = Chain(collaborators: seq<Collaborator>)

  /** The result `call` hands back, `[status, {messages:, errors:}]`. */
  type Outcome = (Status, Report)

  predicate Resolvable(context: Context, ref: StepRef)
  {
    ref.Callable? || (ref.Named? && ref.name in context)
  }

  /** `chainable_method`: a name is sent to the context (raising
      `NoMethodError` when it has no such method), a Proc is taken as is,
      and any other entry matches no arm. */
  function ChainableMethod(context: Context, ref: StepRef): (r: Result<Collaborator>)
    ensures r.Success? <==> Resolvable(context, ref)
    ensures ref.Named? && ref.name in context ==> r == Success(Collaborator(context[ref.name]))
    ensures ref.Callable? ==> r == Success(Collaborator(ref.proc))
    ensures ref.Named? && ref.name !in context ==> r == Failure(NoMethodError(ref.name))
    ensures ref.Unsupported? ==> r == Failure(NoMatchingPatternError)
  {
    match ref
    case Named(name) => if name in context then Success(Collaborator(context[name])) else Failure(NoMethodError(name))
    case Callable(f) => Success(Collaborator(f))
    case Unsupported => Failure(NoMatchingPatternError)
  }

  /** `Chain.new(functions, context:)`: every entry resolved, in order; the
      first entry that cannot be resolved raises its error. */
  function New(refs: seq<StepRef>, context: Context): (r: Result<Chain>)
    ensures r.Success? <==> forall i :: 0 <= i < |refs| ==> Resolvable(context, refs[i])
    ensures r.Success? ==> |r.value.collaborators| == |refs|
    ensures r.Success? ==> forall i :: 0 <= i < |refs| ==>
      ChainableMethod(context, refs[i]) == Success(r.value.collaborators[i])
    ensures r.Failure? ==>
      exists i :: (0 <= i < |refs| && !Resolvable(context, refs[i])
                   && (forall j :: 0 <= j < i ==> Resolvable(context, refs[j]))
                   && r.error == ChainableMethod(context, refs[i]).error)
    decreases |refs|
  {
    if |refs| == 0 then Success(Chain([]))
    else
      var first :- ChainableMethod(context, refs[0]);
      var rest :- New(refs[1..], context);
      Success(Chain([first] + rest.collaborators))
  }

  /** `reduce(payload, &reducer)`: each collaborator's output is the next
      one's input, first to last; a raised error ends the fold. */
  function Fold(cs: seq<Collaborator>, p: Payload): (r: Result<Payload>)
    ensures p.status != Ok ==> r == Success(p)
    ensures Seeded(p) && r.Success? ==> Seeded(r.value)
    decreases |cs|
  {
    if |cs| == 0 then Success(p)
    else
      var q :- Collaborators.Call(cs[0], p);
      Fold(cs[1..], q)
  }

  /** Running `cs + ds` is running `cs`, then `ds` on what `cs` produced. */
  lemma {:induction false} FoldAppend(cs: seq<Collaborator>, ds: seq<Collaborator>, p: Payload)
    ensures Fold(cs + ds, p) ==
      (if Fold(cs, p).Success? then Fold(ds, Fold(cs, p).value) else Fold(cs, p))
    decreases |cs|
  {
    if |cs| == 0 {
      assert cs + ds == ds;
    } else {
      assert (cs + ds)[1..] == cs[1..] + ds;
      match Collaborators.Call(cs[0], p)
      case Success(q) => FoldAppend(cs[1..], ds, q);
      case Failure(_) =>
    }
  }

  /** `no_op` and `error` are absorbing: once a prefix of the chain yields
      one, the steps after it never matter and the final payload is the one
      that prefix produced. */
  lemma ShortCircuit(cs: seq<Collaborator>, i: nat, p: Payload)
    requires i <= |cs|
    requires Fold(cs[..i], p).Success? && Fold(cs[..i], p).value.status != Ok
    ensures Fold(cs, p) == Fold(cs[..i], p)
    ensures forall ds :: Fold(cs[..i] + ds, p) == Fold(cs[..i], p)
  {
    forall ds {
      FoldAppend(cs[..i], ds, p);
    }
    assert cs == cs[..i] + cs[i..];
  }

  /** `Chain#call(initial_status, initial_args)`: the seed payload, folded
      through the chain, projected with `as_result`. */
  function Call(chain: Chain, initialStatus: Atom, initialArgs: Hash): (r: Result<Outcome>)
    ensures !IsStatusTag(initialStatus) ==> r == Failure(Payloads.New(initialStatus, initialArgs, map[]).error)
    ensures IsStatusTag(initialStatus) && |chain.collaborators| == 0 ==>
      r == Success((ValidateStatus(initialStatus).value, Report(Seed(initialArgs), map[])))
    ensures r.Success? ==> HasWarningSet(r.value.1.messages)
  {
    var seed :- Payloads.New(initialStatus, initialArgs, map[]);
    var last :- Fold(chain.collaborators, seed);
    Success(AsResult(last))
  }

  /** With a valid initial status, `call` folds the chain over the payload
      built from that status and the initial arguments, with no errors, and
      projects what the fold produced. */
  lemma CallFoldsSeed(chain: Chain, initialStatus: Status, initialArgs: Hash)
    ensures var seed := Payload(initialStatus, Seed(initialArgs), map[]);
      && Seeded(seed)
      && Call(chain, Tag(initialStatus), initialArgs) ==
         (if Fold(chain.collaborators, seed).Success?
          then Success(AsResult(Fold(chain.collaborators, seed).value))
          else Failure(Fold(chain.collaborators, seed).error))
  {
    NewFrom(initialStatus, initialArgs, map[]);
  }

  /** The status `call` uses when none is given. */
  const DefaultStatus: Atom := Tag(Ok)

  /** `call` with a block: the block's value on the result, in place of
      the result itself. */
  function CallWith<T>(chain: Chain, initialStatus: Atom, initialArgs: Hash, block: Outcome -> T): (r: Result<T>)
    ensures r.Success? <==> Call(chain, initialStatus, initialArgs).Success?
    ensures r.Success? ==> r.value == block(Call(chain, initialStatus, initialArgs).value)
    ensures r.Failure? ==> r.error == Call(chain, initialStatus, initialArgs).error
  {
    var result :- Call(chain, initialStatus, initialArgs);
    Success(block(result))
  }

  /** Without a block the result is returned as it is. */
  lemma CallWithoutBlock(chain: Chain, initialStatus: Atom, initialArgs: Hash)
    ensures CallWith(chain, initialStatus, initialArgs, (o: Outcome) => o) == Call(chain, initialStatus, initialArgs)
  {
  }

  /** Starting in `error` (or `no_op`) runs no step at all: the result is
      the seed's projection, whatever the chain holds. */
  lemma CallFromTerminalStatus(chain: Chain, initialStatus: Status, initialArgs: Hash)
    requires initialStatus != Ok
    ensures Call(chain, Tag(initialStatus), initialArgs) == Success((initialStatus, Report(Seed(initialArgs), map[])))
  {
    NewFrom(initialStatus, initialArgs, map[]);
  }
}
