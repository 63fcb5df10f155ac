/** The outcome of whole chains built from concrete steps that return the
    accepted shapes; the Consume/Transform pair follows the chain spec's
    delete-then-fetch example. */
module Scenarios {
  import opened Values
  import opened Failures
  import opened Payloads
  import opened Collaborators
  import opened Chains

  /** A step that changes nothing and returns `:ok`. */
  function Pass(p: Payload): Result<StepReturn>
  {
    Success(StepReturn(p.messages, p.errors, Bare(Tag(Ok))))
  }

  /** A step returning `[status, hash]` without touching its payload. */
  function Returning(status: Status, h: Hash): Step
  {
    (p: Payload) => Success(StepReturn(p.messages, p.errors, Pair(Tag(status), h)))
  }

  /** One step that returns `:ok`, called with `id: 7`. */
  lemma SinglePassingStep()
    ensures Chains.Call(Chain([Collaborator(Pass)]), DefaultStatus, map["id" := Scalar(Int(7))])
      == Success((Ok, Report(map["id" := Scalar(Int(7)), Warnings := SetOf({})], map[])))
  {
    var seed := Payload(Ok, map["id" := Scalar(Int(7)), Warnings := SetOf({})], map[]);
    NewFrom(Ok, map["id" := Scalar(Int(7))], map[]);
    assert Seed(map["id" := Scalar(Int(7))]) == seed.messages;
    SeedIdempotent(seed.messages);
    NewFrom(Ok, seed.messages, map[]);
    assert Collaborators.Call(Collaborator(Pass), seed) == Success(seed);
    assert [Collaborator(Pass)][1..] == [];
    assert Fold([Collaborator(Pass)], seed) == Success(seed);
  }

  /** An `ok` step adding `x: 1`, then an `error` step reporting a reason:
      the error ends the chain, the third step never matters, and both the
      message and the error are returned. */
  lemma ErrorStopsTheChain(third: Collaborator)
    ensures Chains.Call(
        Chain([Collaborator(Returning(Ok, map["x" := Scalar(Int(1))])),
               Collaborator(Returning(Error, map["reason" := Scalar(Str("bad"))])),
               third]),
        DefaultStatus, map[])
      == Success((Error, Report(map["x" := Scalar(Int(1)), Warnings := SetOf({})],
                                map["reason" := Scalar(Str("bad"))])))
  {
    var s1 := Collaborator(Returning(Ok, map["x" := Scalar(Int(1))]));
    var s2 := Collaborator(Returning(Error, map["reason" := Scalar(Str("bad"))]));
    var cs := [s1, s2, third];
    var seed := Payload(Ok, map[Warnings := SetOf({})], map[]);
    NewFrom(Ok, map[], map[]);
    assert Seed(map[]) == seed.messages;
    var afterFirst := Payload(Ok, map["x" := Scalar(Int(1)), Warnings := SetOf({})], map[]);
    CallNormalises(s1, seed);
    MergeIntoSeeded(seed.messages, map["x" := Scalar(Int(1))]);
    assert MergeHash(seed.messages, map["x" := Scalar(Int(1))]) == afterFirst.messages;
    assert Collaborators.Call(s1, seed) == Success(afterFirst);
    var afterSecond := Payload(Error, afterFirst.messages, map["reason" := Scalar(Str("bad"))]);
    CallNormalises(s2, afterFirst);
    SeedIdempotent(afterFirst.messages);
    assert MergeHash(map[], map["reason" := Scalar(Str("bad"))]) == afterSecond.errors;
    assert Collaborators.Call(s2, afterFirst) == Success(afterSecond);
    assert cs[1..][1..] == [third];
    assert Fold(cs, seed) == Success(afterSecond);
  }

  /** `payload.delete(:String)`, returned under `string`. */
  function Consume(p: Payload): Result<StepReturn>
  {
    var taken :- Delete(p, "String");
    Success(StepReturn(taken.1.messages, taken.1.errors, Pair(Tag(Ok), map["string" := taken.0])))
  }

  /** `payload.fetch(:string)`, transformed and returned under `string`. */
  function Transform(transform: Value -> Value, p: Payload): Result<StepReturn>
  {
    var v :- Fetch(p, "string", NoFallback);
    Success(StepReturn(p.messages, p.errors, Pair(Tag(Ok), map["string" := transform(v)])))
  }

  function Transforming(transform: Value -> Value): Step
  {
    (p: Payload) => Transform(transform, p)
  }

  lemma ConsumeStep(copy: Atom)
    ensures Collaborators.Call(Collaborator(Consume), Payload(Ok, map["String" := Scalar(copy), Warnings := SetOf({})], map[]))
      == Success(Payload(Ok, map["string" := Scalar(copy), Warnings := SetOf({})], map[]))
  {
    var c1 := Collaborator(Consume);
    var seed := Payload(Ok, map["String" := Scalar(copy), Warnings := SetOf({})], map[]);
    var emptied := map[Warnings := SetOf({})];
    assert seed.messages - {"String"} == emptied;
    assert Consume(seed) == Success(StepReturn(emptied, map[], Pair(Tag(Ok), map["string" := Scalar(copy)])));
    CallNormalises(c1, seed);
    MergeIntoSeeded(emptied, map["string" := Scalar(copy)]);
    assert MergeHash(emptied, map["string" := Scalar(copy)]) == map["string" := Scalar(copy), Warnings := SetOf({})];
  }

  lemma TransformStep(copy: Atom, transform: Value -> Value)
    ensures Collaborators.Call(Collaborator(Transforming(transform)), Payload(Ok, map["string" := Scalar(copy), Warnings := SetOf({})], map[]))
      == Success(Payload(Ok, map["string" := transform(Scalar(copy)), Warnings := SetOf({})], map[]))
  {
    var c2 := Collaborator(Transforming(transform));
    var before := Payload(Ok, map["string" := Scalar(copy), Warnings := SetOf({})], map[]);
    var h := map["string" := transform(Scalar(copy))];
    assert c2.run(before) == Transform(transform, before) == Success(StepReturn(before.messages, map[], Pair(Tag(Ok), h)));
    CallNormalises(c2, before);
    MergeIntoSeeded(before.messages, h);
    assert MergeHash(before.messages, h) == map["string" := transform(Scalar(copy)), Warnings := SetOf({})];
  }

  /** A step that consumes `String` and returns it under `string`, then a
      step that returns `string` transformed: the consumed key does not
      reach the result and the later value overwrites the earlier one. */
  lemma ConsumeThenTransform(copy: Atom, transform: Value -> Value)
    ensures Chains.Call(Chain([Collaborator(Consume), Collaborator(Transforming(transform))]),
                        DefaultStatus, map["String" := Scalar(copy)])
      == Success((Ok, Report(map["string" := transform(Scalar(copy)), Warnings := SetOf({})], map[])))
  {
    var cs := [Collaborator(Consume), Collaborator(Transforming(transform))];
    var args := map["String" := Scalar(copy)];
    var seed := Payload(Ok, map["String" := Scalar(copy), Warnings := SetOf({})], map[]);
    NewFrom(Ok, args, map[]);
    assert Seed(args) == seed.messages;
    ConsumeStep(copy);
    TransformStep(copy, transform);
    var middle := Payload(Ok, map["string" := Scalar(copy), Warnings := SetOf({})], map[]);
    var last := Payload(Ok, map["string" := transform(Scalar(copy)), Warnings := SetOf({})], map[]);
    assert cs[1..][1..] == [];
    assert Fold(cs[1..], middle) == Success(last);
    assert Fold(cs, seed) == Success(last);
  }
}
