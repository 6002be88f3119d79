/** Logs of what threads did, in order, and what each of them did. */
module Logs {
  import opened Sequences

  datatype Option<+T> = None | Some(value: T)

  type Log<E> = seq<(nat, E)>

  /** What was done, whoever did it. */
  function Entries<E>(log: Log<E>): seq<E> {
    seq(|log|, i requires 0 <= i < |log| => log[i].1)
  }

  /** What one thread did. */
  function Of<E>(log: Log<E>, t: nat): seq<E> {
    if log == [] then [] else
    Of(log[..|log| - 1], t) + if log[|log| - 1].0 == t then [log[|log| - 1].1] else []
  }

  lemma Append<E>(log: Log<E>, t: nat, e: E, u: nat)
    ensures Of(log + [(t, e)], u) == Of(log, u) + (if u == t then [e] else [])
    ensures Entries(log + [(t, e)]) == Entries(log) + [e]
  {
    assert (log + [(t, e)])[..|log + [(t, e)]| - 1] == log;
  }

  function Tagged<E>(t: nat, effect: seq<E>): Log<E>
    requires |effect| <= 1
  {
    if effect == [] then [] else [(t, effect[0])]
  }

  /** At most one more thing done by t. */
  lemma OfTagged<E>(log: Log<E>, t: nat, effect: seq<E>, u: nat)
    requires |effect| <= 1
    ensures Of(log + Tagged(t, effect), u) == Of(log, u) + if u == t then effect else []
    ensures Entries(log + Tagged(t, effect)) == Entries(log) + effect
  {
    if effect == [] {
      assert log + Tagged(t, effect) == log;
    } else {
      Append(log, t, effect[0], u);
    }
  }

  function Concat<E>(parts: seq<seq<E>>): seq<E> {
    if parts == [] then [] else parts[0] + Concat(parts[1..])
  }

  lemma {:induction false} ConcatOneMore<E>(parts: seq<seq<E>>, t: nat, e: E)
    requires t < |parts|
    ensures multiset(Concat(parts[t := parts[t] + [e]])) == multiset(Concat(parts)) + multiset{e}
  {
    if t == 0 {
      assert parts[t := parts[t] + [e]][1..] == parts[1..];
    } else {
      assert parts[t := parts[t] + [e]][1..] == parts[1..][t - 1 := parts[1..][t - 1] + [e]];
      ConcatOneMore(parts[1..], t - 1, e);
    }
  }

  lemma {:induction false} ConcatNothing<E>(parts: seq<seq<E>>)
    requires forall t :: 0 <= t < |parts| ==> parts[t] == []
    ensures Concat(parts) == []
  {
    if parts != [] {
      ConcatNothing(parts[1..]);
    }
  }

  /** A log in which only the first n threads do anything. */
  predicate Within<E>(log: Log<E>, n: nat) {
    forall i :: 0 <= i < |log| ==> log[i].0 < n
  }

  function Parts<E>(log: Log<E>, n: nat): seq<seq<E>> {
    seq(n, t requires 0 <= t < n => Of(log, t))
  }

  /** What was done is what the threads did, put together. */
  lemma {:induction false} EntriesByThread<E>(log: Log<E>, n: nat)
    requires Within(log, n)
    ensures multiset(Entries(log)) == multiset(Concat(Parts(log, n)))
  {
    if log == [] {
      ConcatNothing(Parts(log, n));
      assert Entries(log) == [];
    } else {
      var rest := log[..|log| - 1];
      var (t, e) := log[|log| - 1];
      assert log == rest + [(t, e)];
      EntriesByThread(rest, n);
      forall u: nat | u < n ensures Of(log, u) == Of(rest, u) + if u == t then [e] else [] {
        Append(rest, t, e, u);
      }
      Append(rest, t, e, t);
      assert t < n;
      forall u: nat | u < n ensures Parts(log, n)[u] == Parts(rest, n)[t := Parts(rest, n)[t] + [e]][u] {
        assert Of(log, u) == Of(rest, u) + if u == t then [e] else [];
      }
      assert Parts(log, n) == Parts(rest, n)[t := Parts(rest, n)[t] + [e]];
      ConcatOneMore(Parts(rest, n), t, e);
    }
  }

  /** Items that enter a queue at the back and are logged when they leave at the front:
      the log followed by the queue grows by what entered. */
  lemma QueueMoves<E>(log: Log<E>, t: nat, queue: seq<E>, rest: seq<E>, inn: seq<E>, out: seq<E>)
    requires |out| <= 1 && queue + inn == out + rest
    ensures Entries(log + Tagged(t, out)) + rest == Entries(log) + queue + inn
  {
    OfTagged(log, t, out, t);
    Regroup(Entries(log), out, rest);
    Regroup(Entries(log), queue, inn);
  }
}
