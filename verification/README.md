# cuban_linx pipeline core, modelled in Dafny

This project models the core of the `cuban_linx` Ruby library. The library runs a
chain of steps against a status-tagged **Payload**. Every step's return value is
normalised into the next payload. A step that yields `no_op` or `error` stops the
chain.

The model has three parts:

- **Payload** (`payload.dfy`, module `Payloads`). A `Status` (`Ok`, `NoOp`, `Error`)
  and two hashes, `messages` and `errors`. The constructor validates the raw
  status tag and seeds a `warnings` Set into `messages`. The accessors are
  `Fetch`, `Delete`, `Add`, `AddErrors`, `AddWarning`, `GetWarnings`, `Tuple`
  and `AsResult`.
- **Merge rule** (`values.dfy`, module `Values`). Ruby values are opaque `Atom`s,
  Sets or Arrays of atoms. A hash is a `map` from symbol names to values. Every
  hash merge goes through `MergeValue`: a Set accumulates what arrives, and any
  other value is overwritten.
- **Collaborator** (`collaborator.dfy`, module `Collaborators`). A step is a pure
  function. It receives the payload and returns the messages and errors as it
  left them (it may `delete` or `add_warning`), plus its raw return value. It may
  also raise. `Call` short-circuits on `no_op`/`error`. `Handle` maps the seven
  accepted return shapes to the next payload; any other shape raises
  `NoMatchingPatternError`.
- **Chain** (`chain.dfy`, module `Chains`). `New` resolves step references once,
  through a context that maps method names to steps. `Call` builds the seed
  payload, folds the collaborators left to right, projects `as_result`, and
  `CallWith` applies the optional block.

Ruby exceptions are values of `Failures.Raised` carried by a `Result`:
`InvalidStatusError`, `KeyError`, `NoMatchingPatternError` and `NoMethodError`
from the core itself, and `StepRaised` for any other exception a step raises,
which propagates through the collaborator and the chain unchanged.
`scenarios.dfy` states the outcome of whole chains with concrete steps.

Two behaviours of the Ruby code worth noting:

- A step returning `[:no_op, messages]` leaves the next payload with **empty**
  errors, whatever errors the incoming payload held. `handle` passes only two
  arguments to `Payload.new`, so its default `errors = {}` applies
  (lib/cuban_linx/collaborator.rb:31-32, lib/cuban_linx/payload.rb:8). Every
  other arm keeps or merges the earlier errors. `Collaborators.CallNormalises`
  states this arm as the code behaves.
- `warnings` is a Ruby `Set`, so the same warning added twice is kept once
  (`Payloads.AddWarningIdempotent`).

## Model

| member | source | states |
|---|---|---|
| Values.MergeValue | lib/cuban_linx/payload.rb:75-88 | If the existing value is a Set, the result is that Set plus every atom the incoming value contributes (an Array's elements, a Set's members, or the scalar itself). Otherwise the incoming value wins. |
| Values.MergeHash | lib/cuban_linx/payload.rb:30-36 | A merged hash has the union of both key sets. A key on one side only keeps its value. A key on both sides goes through the merge rule. |
| Values.MergeKeepsAccumulator | lib/cuban_linx/payload.rb:75-88 | A Set accumulator stays a Set. It keeps all its old elements and gains everything the incoming value contributes. |
| Values.MergeHashEmpty | lib/cuban_linx/payload.rb:30-36 | Merging an empty hash, on either side, leaves the other hash unchanged. |
| Payloads.ValidateStatus | lib/cuban_linx/payload.rb:66-72 | Validation succeeds exactly when the tag is a String or Symbol naming ok, no_op or error, and returns that status. Any other String or Symbol raises InvalidStatusError with the received tag. A tag without `to_sym` raises NoMethodError. |
| Payloads.TagRoundTrip | lib/cuban_linx/payload.rb:6 | Writing any status as its symbol and validating it gives the same status back. |
| Payloads.Seed | lib/cuban_linx/payload.rb:10 | Seeding adds `warnings` to the keys and leaves every other key unchanged. A supplied Set of warnings is kept. Absent or non-Set warnings become the empty Set. |
| Payloads.SeedIdempotent | lib/cuban_linx/payload.rb:10 | Seeding a hash that already holds a warnings Set changes nothing. |
| Payloads.MergeIntoSeeded | lib/cuban_linx/collaborator.rb:14 | Merging anything into a hash with a warnings Set keeps that Set, so re-seeding the merged hash in `Payload.new` is a no-op. |
| Payloads.New | lib/cuban_linx/payload.rb:8-12 | Construction succeeds exactly when the status tag is valid, and raises the validation error otherwise. On success the messages are the supplied ones with warnings seeded (three cases), and the errors are exactly as supplied. |
| Payloads.NewIsSeeded | spec/lib/cuban_linx/payload_spec.rb:42-48 | Every constructed payload has a warnings Set. With no warnings supplied, it is empty. |
| Payloads.Fetch | lib/cuban_linx/payload.rb:14-20 | A present key returns its value, whatever the fallback. An absent key returns the default value or the block's result on the key; given both, the block's result. With no fallback it raises KeyError. It fails exactly in that last case. |
| Payloads.Delete | lib/cuban_linx/payload.rb:46-50 | Delete succeeds exactly when the key is present and returns the old value. Afterwards the key is absent and every other key, the status and the errors are unchanged. An absent key raises KeyError. |
| Payloads.DeleteThenFetch | spec/lib/cuban_linx/payload_spec.rb:142-169 | After a delete, fetch with a default moves from the old value to the default. Fetch without a fallback raises KeyError, and so does a second delete. |
| Payloads.Add | lib/cuban_linx/payload.rb:30-32 | Messages are merged key by key: one-sided keys are kept, new values win except over a Set, and Sets absorb what arrives. On a seeded payload the warnings Set only grows. |
| Payloads.AddErrors | lib/cuban_linx/payload.rb:34-36 | Errors are merged key by key under the same rule as messages. |
| Payloads.AddWarning | lib/cuban_linx/payload.rb:38-40 | The returned hash is `add(warnings: m)`. On a seeded payload, warnings become the old warnings plus m, no other key changes, and the payload ends up holding the returned hash. An unseeded payload is unchanged. |
| Payloads.AddWarningTwice | spec/lib/cuban_linx/payload_spec.rb:110-137 | Two successive warnings are both in the set, alongside the earlier ones. |
| Payloads.AddWarningIdempotent | lib/cuban_linx/payload.rb:38-40 | Adding the same warning twice gives the same payload as adding it once. |
| Payloads.GetWarnings | lib/cuban_linx/payload.rb:42-44 | Whatever value is stored under `warnings` is returned, and on a seeded payload it is a Set. With warnings deleted, the call raises KeyError. |
| Payloads.Rebuild | lib/cuban_linx/payload.rb:8-12 | A seeded payload is exactly what the constructor builds from its own status symbol, messages and errors. |
| Payloads.NewFrom | lib/cuban_linx/payload.rb:8-12 | Building from a status symbol gives that status, the seeded messages and the supplied errors. |
| Payloads.Tuple | lib/cuban_linx/payload.rb:22-24 | Passing the triple back to the constructor rebuilds the same seeded payload. |
| Payloads.TupleOfNew | spec/lib/cuban_linx/payload_spec.rb:78-88 | For every status, messages and errors, the tuple of the constructed payload is the status, the messages with warnings seeded, and the errors exactly as supplied. |
| Payloads.AsResultOfNew | spec/lib/cuban_linx/payload_spec.rb:90-104 | For every status, messages and errors, `as_result` of the constructed payload is the status with the seeded messages and the errors exactly as supplied. |
| Payloads.AsResult | lib/cuban_linx/payload.rb:26-28 | The result carries the same status, messages and errors as the tuple, and they rebuild the payload. |
| Collaborators.Handle | lib/cuban_linx/collaborator.rb:23-40 | Handling succeeds exactly on the accepted shapes: `:ok`, nil, or a pair or triple led by ok, no_op or error. Any other shape raises NoMatchingPatternError. Every accepted shape yields a valid status tag. |
| Collaborators.Call | lib/cuban_linx/collaborator.rb:10-19 | A no_op or error payload is returned unchanged. On ok, an exception raised by the step propagates. Otherwise the call succeeds exactly when the return shape is accepted, and the next payload is seeded. |
| Collaborators.ShortCircuitIgnoresStep | spec/lib/cuban_linx/collaborator_spec.rb:3-18 | On a no_op or error payload, any two collaborators give the same result, the payload itself, so the step is never run. |
| Collaborators.CallNormalises | lib/cuban_linx/collaborator.rb:25-38 | The seven arms. `:ok`/nil keep the step's messages and errors. `[:ok, m]` merges m and keeps errors. `[s, m, e]` merges both under status s. `[:no_op, m]` merges m and resets errors to empty. `[:error, e]` keeps messages and merges e. |
| Collaborators.CallKeepsWarnings | lib/cuban_linx/collaborator.rb:13-14 | Warnings a step left in its payload are all still present in the next payload, whatever shape the step returned. |
| Collaborators.RefusedShapes | spec/lib/cuban_linx/collaborator_spec.rb:41-91 | true, false, integers, strings, a bare `:no_op`, a string "ok" in place of the symbol, and a triple led by an unknown status are not accepted. |
| Chains.ChainableMethod | lib/cuban_linx/chain.rb:23-30 | A name the context defines resolves to that step, and a Proc is used as is. An unknown name raises NoMethodError, and any other entry raises NoMatchingPatternError. |
| Chains.New | lib/cuban_linx/chain.rb:3-7 | Construction succeeds exactly when every entry resolves. The collaborators then map one-to-one, in order, onto the entries. Otherwise the error is that of the first entry that does not resolve. |
| Chains.Fold | lib/cuban_linx/chain.rb:19-21 | Folding a no_op or error payload returns it unchanged, whatever the steps. Folding keeps a seeded payload seeded. |
| Chains.FoldAppend | lib/cuban_linx/chain.rb:11 | Folding `cs + ds` is folding `cs`, then `ds` over its output. An exception in `cs` ends the fold. |
| Chains.ShortCircuit | lib/cuban_linx/chain.rb:19-21 | Once a prefix of the chain yields no_op or error, the final payload is that prefix's output, and replacing the rest of the chain changes nothing. |
| Chains.Call | lib/cuban_linx/chain.rb:9-15 | An invalid initial status raises the constructor's error. An empty chain returns the seed's projection. A successful result always has a warnings Set. |
| Chains.CallFoldsSeed | lib/cuban_linx/chain.rb:10-11 | The result is `as_result` of folding the chain over a seed built from the initial status, the initial args with warnings seeded, and no errors. An exception in the fold propagates. |
| Chains.CallWith | lib/cuban_linx/chain.rb:12 | With a block, the call returns the block applied to the result and fails exactly when the call without it fails. |
| Chains.CallWithoutBlock | spec/lib/cuban_linx/chain_spec.rb:85-108 | With the identity block, the call is the same as without a block. |
| Chains.CallFromTerminalStatus | spec/lib/cuban_linx/chain_spec.rb:48-59 | An initial error (or no_op) status runs no step. The result has that status, the seeded initial messages and empty errors. |
| Scenarios.SinglePassingStep | spec/lib/cuban_linx/collaborator_spec.rb:32-38 | One step returning `:ok`, called with `id: 7`, gives ok with `{id: 7, warnings: {}}` and no errors. |
| Scenarios.ErrorStopsTheChain | lib/cuban_linx/collaborator.rb:37-38 | An ok step adding `x: 1`, then `[:error, {reason: "bad"}]`, ends in error with `{x: 1, warnings: {}}` and `{reason: "bad"}`, whatever the third step is. |
| Scenarios.ConsumeStep | spec/lib/cuban_linx/chain_spec.rb:63 | A step that deletes `String` and returns it under `string` yields a payload without `String`. |
| Scenarios.TransformStep | spec/lib/cuban_linx/chain_spec.rb:64-66 | A step that returns a fetched value transformed overwrites the earlier value under the same key. |
| Scenarios.ConsumeThenTransform | spec/lib/cuban_linx/chain_spec.rb:61-83 | The two steps chained give ok, the transformed copy under `string`, no `String`, and no errors. |

## Left out

- Dynamic accessors `method_missing` and `respond_to_missing?` (lib/cuban_linx/payload.rb:52-60): reflective sugar over `fetch`. `Payloads.Fetch` is the whole interface.
- `instance_exec` context binding (lib/cuban_linx/collaborator.rb:13): a step is a pure function of the payload, and the context is the map from method names to steps it exposes.
- A context method that returns something other than a callable is not modelled: the context maps names only to steps.
- Ruby object identity: the in-place `set1 << val` of the merge block is modelled by value. Set objects shared between keys, between payloads, or with the caller are not modelled: in Ruby, `add` or `add_errors` inserting a scalar into such a Set grows every holder of it (and a step calling `payload.add` grows the payload's own Set), while the model changes only the merged hash it returns. `Payloads.AddWarning` alone models the mutation of the payload's own warnings Set.
- Hashes with non-Symbol keys: every key is a Symbol name. A String key such as `"warnings"` is a different key from `:warnings` in Ruby, and the model cannot express it.
- Payloads.AddWarning: models scalar warnings only. An Array or Set argument takes the union branch, which returns a new hash without mutating the payload.
- Collaborators.Handle: a pair or triple whose members are not Hashes is the `Unshaped` result and raises NoMatchingPatternError. Ruby would match the arm and then raise TypeError inside `merge`.
- Arrays and Sets hold only atoms. Nested collections inside them are not modelled.
- `lib/cuban_linx/call_chain.rb`: `define_method` wrappers that only build Procs and Chains.
- `funny_business.rb` and the spec fixtures: a demo consumer with randomness and printing.
- Steps that never return, and anything concurrent: the model is sequential and every step is total.
