/** What the threads waiting in a call carry: each is to deliver one item. */
module Waiting {

  ghost function Any(ts: set<nat>): (t: nat)
    requires ts != {}
    ensures t in ts
  {
    var t :| t in ts; t
  }

  /** The items the threads `ts` carry, each as often as it is carried. */
  ghost function Carried<T>(argument: map<nat, T>, ts: set<nat>): multiset<T>
    requires ts <= argument.Keys
    decreases |ts|
  {
    if ts == {} then multiset{}
    else multiset{argument[Any(ts)]} + Carried(argument, ts - {Any(ts)})
  }

  lemma {:induction false} CarriedWithout<T>(argument: map<nat, T>, ts: set<nat>, t: nat)
    requires ts <= argument.Keys && t in ts
    ensures Carried(argument, ts) == multiset{argument[t]} + Carried(argument, ts - {t})
    decreases |ts|
  {
    var u := Any(ts);
    if u != t {
      CarriedWithout(argument, ts - {u}, t);
      CarriedWithout(argument, ts - {t}, u);
      assert ts - {u} - {t} == ts - {t} - {u};
    }
  }

  lemma {:induction false} CarriedSame<T>(a: map<nat, T>, b: map<nat, T>, ts: set<nat>)
    requires ts <= a.Keys && ts <= b.Keys && forall t :: t in ts ==> a[t] == b[t]
    ensures Carried(a, ts) == Carried(b, ts)
    decreases |ts|
  {
    if ts != {} { CarriedSame(a, b, ts - {Any(ts)}); }
  }

  /** A thread joins with its item. */
  lemma CarriedJoins<T>(argument: map<nat, T>, ts: set<nat>, t: nat, x: T)
    requires ts <= argument.Keys && t !in ts
    ensures Carried(argument[t := x], ts + {t}) == Carried(argument, ts) + multiset{x}
  {
    var b := argument[t := x];
    CarriedWithout(b, ts + {t}, t);
    assert ts + {t} - {t} == ts;
    CarriedSame(argument, b, ts);
  }
}
