# A deterministic finite automaton engine, modelled in Dafny

The system is a small DFA engine. The caller creates states and wires
each state's transitions (one target per symbol). The caller marks some
states accepting and assigns one state as the automaton's initial state.
`accepts?` then folds `next_for` over the input's characters, left to right,
and reports whether the state it ends on is accepting. A character a state
has no transition for leaves the run on that state (a self-loop). The
alphabet is checked once, when the automaton is built. It must be a
non-empty set. It is never consulted afterwards.

The model keeps the source's object structure:

- `FiniteAutomaton.State` is a class (file `dfa.dfy`).
  - `trans: map<char, State>` is the transition hash.
  - `accepting: bool` is the flag.
  - `On` inserts a transition and refuses a symbol that is already mapped.
  - `MarkAccepting` sets the flag. `IsAccepting` reads it.
  - `NextFor` is the total two-branch lookup: the mapped target, or the
    state itself.
  - States are compared by reference, as Ruby compares them by identity.
    The graph may be cyclic.
- `FiniteAutomaton.Run(q, s)` is the `inject` fold, a function that
  `reads *`: the run may follow any reference.
- `FiniteAutomaton.Dfa` is a class.
  - `alphabet` is a `const`.
  - `initial: State?` is the mutable accessor. It is `null` until the
    caller assigns it.
  - `New` validates the alphabet and returns a `Result`.
  - `Accepts(s)` is `Run(initial, s).IsAccepting()`. It requires that
    `initial` has been assigned.
- `Mod3Scenario` (file `mod3.dfy`) holds the source's test scenarios.
  - It proves the three-state additive automaton correct for every input:
    an input is accepted iff (#b + 2·#c) mod 3 = 2.
  - The concrete verdicts of the integration test follow from that.
  - Client methods (`ConstructionScenario`, `StateScenario`,
    `IntegrationScenario`, `BuildScenario`) replay the rspec scenarios
    through the engine's own operations.

## Model

| member | source | states |
|---|---|---|
| `FiniteAutomaton.State.constructor` | dfa.rb:21-31 | a fresh state has an empty transition map and is not accepting (the unset flag reads as false), so every symbol leads back to the state itself |
| `FiniteAutomaton.State.MarkAccepting` | dfa.rb:25-27 | afterwards the state is accepting and its transitions are unchanged; so a second call leaves the state as it was |
| `FiniteAutomaton.State.On` | dfa.rb:33-36 | refused (with the offending symbol) exactly when the symbol already has a transition, whatever the target; on refusal the map is unchanged; on success the map gains exactly that entry, `NextFor(c)` is the given target, every other symbol's `NextFor` is unchanged, and the flag is untouched |
| `FiniteAutomaton.State.IsAccepting` | dfa.rb:29-31 | reads the accepting flag, which is false until `MarkAccepting` sets it |
| `FiniteAutomaton.State.NextFor` | dfa.rb:38-40 | the mapped target when the symbol has a transition, otherwise the state itself; total, no precondition |
| `FiniteAutomaton.Run` | dfa.rb:14-16 | the fold over no characters returns its start state; over one character it is a single `NextFor` step; total over every input |
| `FiniteAutomaton.RunAppend` | dfa.rb:13-17 | the fold decomposes: running `s1 + s2` from `q` equals running `s2` from where `s1` ends |
| `FiniteAutomaton.RunSnoc` | dfa.rb:14-16 | one more character is one more `NextFor` step from the state the run had reached |
| `FiniteAutomaton.RunUndefined` | dfa.rb:38-40 | characters with no transition on `q` keep the whole run on `q` (the self-loop default, over any input) |
| `FiniteAutomaton.RunStaysIn` | dfa.rb:14-16 | a run started in a set of states that every transition stays in never leaves that set |
| `FiniteAutomaton.Dfa.constructor` | dfa.rb:7-11 | over a non-empty alphabet, the automaton holds that alphabet and has no initial state yet |
| `FiniteAutomaton.Dfa.New` | dfa.rb:7-11 | construction fails, with the empty-alphabet error, exactly when the alphabet is empty; otherwise it yields a fresh automaton holding the alphabet and no initial state |
| `FiniteAutomaton.Dfa.Accepts` | dfa.rb:13-17 | the empty input is accepted exactly when the initial state is accepting; a non-empty input is accepted exactly when one `NextFor` step on its last character, from where the run over the others ends, lands on an accepting state |
| `FiniteAutomaton.Dfa.AcceptsAppend` | dfa.rb:13-17 | acceptance of `s1 + s2` is the flag of the state reached by running `s2` from where `s1` ends |
| `FiniteAutomaton.AcceptsIgnoresAlphabet` | dfa.rb:10-17 | two automata with the same initial state accept the same inputs whatever their alphabets: evaluation never consults the alphabet |
| `Mod3Scenario.Step` | dfa.rb:126-134 | in the scenario's wiring one step moves from remainder k to k plus the symbol's weight (a 0, b 1, c 2, any other symbol 0) modulo 3 |
| `Mod3Scenario.RunCounts` | dfa.rb:120-137 | every run from remainder k ends on remainder k plus the input's total weight, modulo 3 |
| `Mod3Scenario.AcceptsIffWeight` | dfa.rb:135-137 | started on `first`, the automaton accepts an input if and only if its weight is 2 modulo 3 |
| `Mod3Scenario.RunStaysInScenario` | dfa.rb:123-134 | the three scenario states are closed under their transitions, so every run from `first` ends on one of them |
| `Mod3Scenario.ShortVerdicts` | dfa.rb:140-145 | "c" is accepted; "aaa", "abbb", "bbb" and "ccc" are rejected |
| `Mod3Scenario.LongAccepted` | dfa.rb:139 | "aaaaaabbaaaacb" is accepted |
| `Mod3Scenario.LongRejected` | dfa.rb:143 | "bbbbbbbbbbbbb" is rejected |
| `Mod3Scenario.ConstructionScenario` | dfa.rb:56-71 | building over {a, b, c, d, e} succeeds and keeps that alphabet; building over the empty set fails with the empty-alphabet error |
| `Mod3Scenario.StateScenario` | dfa.rb:74-117 | after `on 'd', second` and `accepting!`, `next_for('d')` is `second`, `next_for('a')` is the state itself, the state is accepting, and a second `on 'c'` is refused and leaves `next_for('c')` as the first target |
| `Mod3Scenario.Wire` | dfa.rb:126-134 | three `on` calls on a state with no transitions register exactly the three given targets for a, b and c, and leave the flag alone |
| `Mod3Scenario.BuildScenario` | dfa.rb:122-137 | building the scenario through `New`, the state constructor, `On` and `MarkAccepting` yields three distinct states with exactly the scenario's wiring, only `third` accepting, `first` as initial state and alphabet {a, b, c} |
| `Mod3Scenario.IntegrationScenario` | dfa.rb:120-146 | the built automaton's verdicts on the seven integration inputs are, in order, accepted, rejected five times, accepted |

## Left out

- The `is_a?(Set)` check (dfa.rb:8) has no counterpart: the alphabet is typed `set<char>`, so a non-set argument cannot be passed. Only the empty-alphabet error remains.
- The exception messages are replaced by the `Error` values `EmptyAlphabet` and `AlreadyDefined(c)`. Raising becomes returning `Failure`.
- An unset `@accepting` is `nil` in Ruby, so `accepting?` and `accepts?` can return `nil` rather than `false`. The model has a `bool` flag that starts `false`: a falsy `nil` and `false` are one value here.
- Ruby's `on` accepts any hash key, including a multi-character string or a non-string that `accepts?` can never reach, because `accepts?` looks up single characters only. `trans: map<char, State>` holds single characters only, so such unreachable entries, and a duplicate-key refusal for them, are not modelled.
- `Dfa.constructor` requires a non-empty alphabet: it is the body of `initialize` after its guards, and `Dfa.New` is the entry point that performs the guard and reports the error.
- `accepts?` before `initial` is assigned is undefined in the source; `Accepts` requires `initial != null`.
- `@map[char] || self` would also fall back to `self` for a stored `nil` target. In the model, a transition target is always a state, so `NextFor` has only two branches: key present, or not.
- `String#split('')` is not modelled: input is a `seq<char>` from the start.
- The rspec harness (`describe`/`it`/`let`) is not modelled. Its scenarios appear as the client methods and lemmas of `Mod3Scenario`.
- `On`'s return value (the Ruby method returns the stored target) is replaced by a `Result<()>` that says whether the transition was registered.
