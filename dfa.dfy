/** A deterministic finite automaton engine.

    States are heap objects, as in the Ruby engine: a state's identity is its
    reference, and transition targets are references to other states (or to
    the state itself), so the state graph may contain cycles.  The automaton
    holds an alphabet, fixed at construction, and a mutable initial state.
 */
module FiniteAutomaton {

  /** The errors the engine raises. */
  datatype Error =
    | EmptyAlphabet            // the automaton was built over an empty alphabet
    | AlreadyDefined(c: char)  // a second transition on `c` from the same state

  datatype Result<T> = Success(value: T) | Failure(error: Error)

  /** One node of the automaton graph. */
  class State {
    /** The outgoing transitions; a symbol is mapped at most once. */
    var trans: map<char, State>
    /** Whether the state is accepting; unset means not accepting. */
    var accepting: bool

    /** A fresh state has no transitions and is not accepting, so every
        symbol leaves it where it is. */
    constructor ()
      ensures trans == map[] && !accepting
      ensures forall c :: NextFor(c) == this
    {
      trans := map[];
      accepting := false;
    }

    /** Marks the state accepting.  The flag only ever moves forward, and the
        transitions are untouched, so a second call changes nothing. */
    method MarkAccepting()
      modifies this
      ensures accepting
      ensures trans == old(trans)
    {
      accepting := true;
    }

    /** The accepting flag: false until `MarkAccepting` is called. */
    function IsAccepting(): (r: bool)
      reads this
      ensures r <==> accepting
    {
      accepting
    }

    /** Registers the transition `c -> t`.  A symbol that already has a
        transition is refused, whatever `t` is, and the state is left as it
        was. */
    method On(c: char, t: State) returns (r: Result<()>)
      modifies this
      ensures r.Failure? <==> c in old(trans)
      ensures r.Failure? ==> r.error == AlreadyDefined(c) && trans == old(trans)
      ensures r.Success? ==> trans == old(trans)[c := t]
      ensures r.Success? ==> NextFor(c) == t
      ensures forall d :: d != c ==> NextFor(d) == old(NextFor(d))
      ensures accepting == old(accepting)
    {
      if c in trans {
        return Failure(AlreadyDefined(c));
      }
      trans := trans[c := t];
      r := Success(());
    }

    /** The state reached on `c`: the registered target, or the state itself
        when `c` has no transition here.  Total: it never fails. */
    function NextFor(c: char): (r: State)
      reads this
      ensures c in trans ==> r == trans[c]
      ensures c !in trans ==> r == this
    {
      if c in trans then trans[c] else this
    }
  }

  /** The left-to-right fold of `NextFor` over the symbols of `s`, starting
      at `q`.  It follows references through the whole heap.  The fold over
      no symbols is `q`, over one symbol a single `NextFor` step. */
  function Run(q: State, s: seq<char>): (r: State)
    reads *
    ensures s == [] ==> r == q
    ensures |s| == 1 ==> r == q.NextFor(s[0])
  {
    if s == [] then q else Run(q.NextFor(s[0]), s[1..])
  }

  /** Running a concatenation is running the second part from where the
      first part ends. */
  lemma {:induction false} RunAppend(q: State, s1: seq<char>, s2: seq<char>)
    ensures Run(q, s1 + s2) == Run(Run(q, s1), s2)
  {
    if s1 == [] {
      assert s1 + s2 == s2;
    } else {
      assert (s1 + s2)[0] == s1[0];
      assert (s1 + s2)[1..] == s1[1..] + s2;
      RunAppend(q.NextFor(s1[0]), s1[1..], s2);
    }
  }

  /** One more symbol is one more `NextFor` step from where the run ended. */
  lemma RunSnoc(q: State, s: seq<char>, c: char)
    ensures Run(q, s + [c]) == Run(q, s).NextFor(c)
  {
    RunAppend(q, s, [c]);
  }

  /** Symbols without a transition on `q` leave the run on `q`. */
  lemma {:induction false} RunUndefined(q: State, s: seq<char>)
    requires forall i :: 0 <= i < |s| ==> s[i] !in q.trans
    ensures Run(q, s) == q
  {
    if s != [] {
      assert q.NextFor(s[0]) == q;
      RunUndefined(q, s[1..]);
    }
  }

  /** A set of states that every transition out of it stays in. */
  ghost predicate Closed(g: set<State>)
    reads g
  {
    forall q, c :: q in g && c in q.trans ==> q.trans[c] in g
  }

  /** A run that starts in a closed set of states never leaves it. */
  lemma {:induction false} RunStaysIn(g: set<State>, q: State, s: seq<char>)
    requires Closed(g) && q in g
    ensures Run(q, s) in g
  {
    if s != [] {
      assert q.NextFor(s[0]) in g;
      RunStaysIn(g, q.NextFor(s[0]), s[1..]);
    }
  }

  /** The automaton: a non-empty alphabet, fixed at construction, and an
      initial state that the caller assigns after wiring the states. */
  class Dfa {
    const alphabet: set<char>
    /** `null` until the caller assigns it. */
    var initial: State?

    /** Builds an automaton over a non-empty alphabet; `New` is the entry
        point that refuses an empty one. */
    constructor (alphabet: set<char>)
      requires alphabet != {}
      ensures this.alphabet == alphabet && initial == null
    {
      this.alphabet := alphabet;
      initial := null;
    }

    /** Validates the alphabet: an empty one is an error and no automaton
        is produced; otherwise a fresh automaton with no initial state. */
    static method New(alphabet: set<char>) returns (r: Result<Dfa>)
      ensures r.Failure? <==> alphabet == {}
      ensures r.Failure? ==> r.error == EmptyAlphabet
      ensures r.Success? ==> fresh(r.value) && r.value.alphabet == alphabet && r.value.initial == null
    {
      if alphabet == {} {
        return Failure(EmptyAlphabet);
      }
      var d := new Dfa(alphabet);
      r := Success(d);
    }

    /** An input is accepted when the run from the initial state ends on an
        accepting state.  Symbols outside the alphabet are not refused.  The
        empty input is accepted exactly when the initial state is; a longer
        one by the flag one `NextFor` step past the run over all but its
        last symbol. */
    function Accepts(s: seq<char>): (r: bool)
      reads *
      requires initial != null
      ensures s == [] ==> (r <==> initial.accepting)
      ensures s != [] ==> (r <==> Run(initial, s[..|s| - 1]).NextFor(s[|s| - 1]).accepting)
    {
      if s != [] then
        RunSnoc(initial, s[..|s| - 1], s[|s| - 1]);
        assert s[..|s| - 1] + [s[|s| - 1]] == s;
        Run(initial, s).IsAccepting()
      else
        Run(initial, s).IsAccepting()
    }

    /** Acceptance of `s1 + s2` is decided by running `s2` from the state
        that `s1` reaches. */
    lemma AcceptsAppend(s1: seq<char>, s2: seq<char>)
      requires initial != null
      ensures Accepts(s1 + s2) <==> Run(Run(initial, s1), s2).accepting
    {
      RunAppend(initial, s1, s2);
    }
  }

  /** Acceptance depends on the initial state and the graph only, never on
      the alphabet. */
  lemma AcceptsIgnoresAlphabet(d1: Dfa, d2: Dfa, s: seq<char>)
    requires d1.initial != null && d1.initial == d2.initial
    ensures d1.Accepts(s) <==> d2.Accepts(s)
  {
  }
}
