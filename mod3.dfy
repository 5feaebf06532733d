/** The three-state additive automaton of the integration scenario: 'a'
    adds 0, 'b' adds 1 and 'c' adds 2 modulo 3, and only the state for 2
    accepts.  The module proves what every input does on it, derives the
    scenario's verdicts from that, and replays the scenarios as clients of
    the engine.
 */
module Mod3Scenario {
  import opened FiniteAutomaton

  /** The wiring of the scenario: q0, q1, q2 stand for the remainders 0, 1
      and 2, and only q2 is accepting. */
  predicate Wired(q0: State, q1: State, q2: State)
    reads q0, q1, q2
  {
    && q0.trans == map['a' := q0, 'b' := q1, 'c' := q2]
    && q1.trans == map['a' := q1, 'b' := q2, 'c' := q0]
    && q2.trans == map['a' := q2, 'b' := q0, 'c' := q1]
    && !q0.accepting && !q1.accepting && q2.accepting
  }

  /** The state standing for remainder `k`. */
  function Pick(q0: State, q1: State, q2: State, k: nat): State
    requires k < 3
  {
    if k == 0 then q0 else if k == 1 then q1 else q2
  }

  /** What one symbol adds; a symbol with no transition adds nothing. */
  function SymbolWeight(c: char): nat
  {
    if c == 'b' then 1 else if c == 'c' then 2 else 0
  }

  function Weight(s: seq<char>): nat
  {
    if s == [] then 0 else SymbolWeight(s[0]) + Weight(s[1..])
  }

  /** The weight of a concatenation is the sum of the weights. */
  lemma {:induction false} WeightAppend(s1: seq<char>, s2: seq<char>)
    ensures Weight(s1 + s2) == Weight(s1) + Weight(s2)
  {
    if s1 == [] {
      assert s1 + s2 == s2;
    } else {
      assert (s1 + s2)[0] == s1[0];
      assert (s1 + s2)[1..] == s1[1..] + s2;
      WeightAppend(s1[1..], s2);
    }
  }

  /** One step moves from remainder `k` to `k` plus the symbol's weight. */
  lemma Step(q0: State, q1: State, q2: State, k: nat, c: char)
    requires Wired(q0, q1, q2) && k < 3
    ensures Pick(q0, q1, q2, k).NextFor(c) == Pick(q0, q1, q2, (k + SymbolWeight(c)) % 3)
  {
  }

  /** Every run from remainder `k` ends on remainder `k` plus the input's
      weight, modulo 3. */
  lemma {:induction false} RunCounts(q0: State, q1: State, q2: State, k: nat, s: seq<char>)
    requires Wired(q0, q1, q2) && k < 3
    ensures Run(Pick(q0, q1, q2, k), s) == Pick(q0, q1, q2, (k + Weight(s)) % 3)
    decreases s
  {
    if s != [] {
      var k' := (k + SymbolWeight(s[0])) % 3;
      Step(q0, q1, q2, k, s[0]);
      RunCounts(q0, q1, q2, k', s[1..]);
      assert (k' + Weight(s[1..])) % 3 == (k + Weight(s)) % 3;
    }
  }

  /** Started on q0, the automaton accepts exactly the inputs whose weight
      is 2 modulo 3. */
  lemma AcceptsIffWeight(d: Dfa, q0: State, q1: State, q2: State, s: seq<char>)
    requires Wired(q0, q1, q2) && d.initial == q0
    ensures d.Accepts(s) <==> Weight(s) % 3 == 2
  {
    RunCounts(q0, q1, q2, 0, s);
  }

  /** The scenario's three states are closed under its transitions, so
      every run from `first` stays among them. */
  lemma RunStaysInScenario(q0: State, q1: State, q2: State, s: seq<char>)
    requires Wired(q0, q1, q2)
    ensures Closed({q0, q1, q2})
    ensures Run(q0, s) in {q0, q1, q2}
  {
    assert Closed({q0, q1, q2});
    RunStaysIn({q0, q1, q2}, q0, s);
  }

  /** The scenario's verdicts on its short inputs. */
  lemma ShortVerdicts(d: Dfa, q0: State, q1: State, q2: State)
    requires Wired(q0, q1, q2) && d.initial == q0
    ensures d.Accepts("c")
    ensures !d.Accepts("aaa") && !d.Accepts("abbb") && !d.Accepts("bbb") && !d.Accepts("ccc")
  {
    AcceptsIffWeight(d, q0, q1, q2, "c");
    AcceptsIffWeight(d, q0, q1, q2, "aaa");
    AcceptsIffWeight(d, q0, q1, q2, "abbb");
    AcceptsIffWeight(d, q0, q1, q2, "bbb");
    AcceptsIffWeight(d, q0, q1, q2, "ccc");
  }

  /** The scenario's long accepted input, "aaaaaabbaaaacb", written in two
      halves so that its weight is the sum of theirs. */
  lemma LongAccepted(d: Dfa, q0: State, q1: State, q2: State)
    requires Wired(q0, q1, q2) && d.initial == q0
    ensures d.Accepts("aaaaaab" + "baaaacb")
  {
    WeightAppend("aaaaaab", "baaaacb");
    AcceptsIffWeight(d, q0, q1, q2, "aaaaaab" + "baaaacb");
  }

  /** The scenario's long rejected input, thirteen 'b's, in two halves. */
  lemma LongRejected(d: Dfa, q0: State, q1: State, q2: State)
    requires Wired(q0, q1, q2) && d.initial == q0
    ensures !d.Accepts("bbbbbb" + "bbbbbbb")
  {
    WeightAppend("bbbbbb", "bbbbbbb");
    AcceptsIffWeight(d, q0, q1, q2, "bbbbbb" + "bbbbbbb");
  }

  /** Construction: an alphabet of five symbols is accepted, the empty one
      is refused. */
  method ConstructionScenario() returns (five: Result<Dfa>, empty: Result<Dfa>)
    ensures five.Success? && five.value.alphabet == {'a', 'b', 'c', 'd', 'e'}
    ensures empty == Failure(EmptyAlphabet)
  {
    five := Dfa.New({'a', 'b', 'c', 'd', 'e'});
    empty := Dfa.New({});
  }

  /** States: a stored transition is returned, an undefined symbol stays
      put, the flag is set, a second transition on one symbol is refused,
      and marking an accepting state again changes nothing. */
  method StateScenario() returns (first: State, second: State, redefined: Result<()>)
    ensures first != second
    ensures first.NextFor('d') == second && first.NextFor('a') == first
    ensures first.IsAccepting()
    ensures redefined == Failure(AlreadyDefined('c')) && first.NextFor('c') == first
  {
    first := new State();
    second := new State();
    var r := first.On('d', second);
    first.MarkAccepting();

    r := first.On('c', first);
    redefined := first.On('c', second);

    var before := first.trans;
    first.MarkAccepting();
    assert first.trans == before;
  }

  /** Registers a state's transitions on 'a', 'b' and 'c', in that order.
      The state starts with none, so no registration is refused. */
  method Wire(q: State, ta: State, tb: State, tc: State)
    requires q.trans == map[]
    modifies q
    ensures q.trans == map['a' := ta, 'b' := tb, 'c' := tc]
    ensures q.accepting == old(q.accepting)
  {
    var r := q.On('a', ta);
    r := q.On('b', tb);
    r := q.On('c', tc);
  }

  /** Builds the integration scenario's automaton through the engine's
      operations. */
  method BuildScenario() returns (d: Dfa, first: State, second: State, third: State)
    ensures Wired(first, second, third) && d.initial == first && d.alphabet == {'a', 'b', 'c'}
    ensures first != second && second != third && third != first
  {
    var made := Dfa.New({'a', 'b', 'c'});
    d := made.value;
    first := new State();
    second := new State();
    third := new State();
    Wire(first, first, second, third);
    Wire(second, second, third, first);
    Wire(third, third, first, second);
    third.MarkAccepting();
    d.initial := first;
  }

  /** The integration scenario: build the automaton, then run the inputs
      "aaaaaabbaaaacb", "aaa", "abbb", "bbb", "bbbbbbbbbbbbb", "ccc" and "c",
      in that order. */
  method IntegrationScenario() returns (verdicts: seq<bool>)
    ensures verdicts == [true, false, false, false, false, false, true]
  {
    var d, first, second, third := BuildScenario();
    ShortVerdicts(d, first, second, third);
    LongAccepted(d, first, second, third);
    LongRejected(d, first, second, third);
    assert "aaaaaab" + "baaaacb" == "aaaaaabbaaaacb";
    assert "bbbbbb" + "bbbbbbb" == "bbbbbbbbbbbbb";
    verdicts := [d.Accepts("aaaaaabbaaaacb"), d.Accepts("aaa"), d.Accepts("abbb"),
                 d.Accepts("bbb"), d.Accepts("bbbbbbbbbbbbb"), d.Accepts("ccc"),
                 d.Accepts("c")];
  }
}
