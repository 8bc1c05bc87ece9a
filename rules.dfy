/** Independent rules fired in a fixed order. Several routines of the system
    test a handful of conditions one after the other and append a fixed
    message for each one that holds; `Selected` is the list such a routine
    returns, and the lemmas here say what that list holds for any rule table. */
module Rules {

  /** The messages whose rule fires, in rule order. */
  function Selected<T>(msgs: seq<T>, fires: seq<bool>): (r: seq<T>)
    requires |msgs| == |fires|
    ensures |r| <= |msgs|
    ensures forall m :: m in r ==> m in msgs
  {
    if msgs == [] then []
    else Selected(msgs[..|msgs| - 1], fires[..|fires| - 1]) + (if fires[|fires| - 1] then [msgs[|msgs| - 1]] else [])
  }

  /** One more rule checked after the first `k`. */
  lemma SelectedStep<T>(msgs: seq<T>, fires: seq<bool>, k: nat)
    requires |msgs| == |fires| && k < |msgs|
    ensures Selected(msgs[..k + 1], fires[..k + 1])
         == Selected(msgs[..k], fires[..k]) + (if fires[k] then [msgs[k]] else [])
  {
    assert msgs[..k + 1][..k] == msgs[..k];
    assert fires[..k + 1][..k] == fires[..k];
  }

  /** The message of one rule, when it fires. */
  function Pick<T>(fires: bool, msg: T): (r: seq<T>)
    ensures |r| <= 1
  {
    if fires then [msg] else []
  }

  /** `if fires: recs.append(msg)` */
  method AppendIf<T>(recs: seq<T>, fires: bool, msg: T) returns (r: seq<T>)
    ensures r == recs + Pick(fires, msg)
  {
    r := recs;
    if fires {
      r := r + [msg];
    }
  }

  /** A table of three rules, checked one after the other. */
  lemma SelectedOfThree<T>(msgs: seq<T>, fires: seq<bool>)
    requires |msgs| == |fires| == 3
    ensures Selected(msgs, fires) == Pick(fires[0], msgs[0]) + Pick(fires[1], msgs[1]) + Pick(fires[2], msgs[2])
  {
    SelectedStep(msgs, fires, 0);
    SelectedStep(msgs, fires, 1);
    SelectedStep(msgs, fires, 2);
    assert msgs[..3] == msgs && fires[..3] == fires;
  }

  /** A table of six rules, checked one after the other. */
  lemma SelectedOfSix<T>(msgs: seq<T>, fires: seq<bool>)
    requires |msgs| == |fires| == 6
    ensures Selected(msgs, fires) == Pick(fires[0], msgs[0]) + Pick(fires[1], msgs[1]) + Pick(fires[2], msgs[2])
      + Pick(fires[3], msgs[3]) + Pick(fires[4], msgs[4]) + Pick(fires[5], msgs[5])
  {
    SelectedOfThree(msgs[..3], fires[..3]);
    SelectedStep(msgs, fires, 3);
    SelectedStep(msgs, fires, 4);
    SelectedStep(msgs, fires, 5);
    assert msgs[..6] == msgs && fires[..6] == fires;
  }

  /** A table of ten rules, checked one after the other. */
  lemma SelectedOfTen<T>(msgs: seq<T>, fires: seq<bool>)
    requires |msgs| == |fires| == 10
    ensures Selected(msgs, fires) == Pick(fires[0], msgs[0]) + Pick(fires[1], msgs[1]) + Pick(fires[2], msgs[2])
      + Pick(fires[3], msgs[3]) + Pick(fires[4], msgs[4]) + Pick(fires[5], msgs[5]) + Pick(fires[6], msgs[6])
      + Pick(fires[7], msgs[7]) + Pick(fires[8], msgs[8]) + Pick(fires[9], msgs[9])
  {
    SelectedOfSix(msgs[..6], fires[..6]);
    SelectedStep(msgs, fires, 6);
    SelectedStep(msgs, fires, 7);
    SelectedStep(msgs, fires, 8);
    SelectedStep(msgs, fires, 9);
    assert msgs[..10] == msgs && fires[..10] == fires;
  }

  predicate Distinct<T(==)>(s: seq<T>) {
    forall i, j :: 0 <= i < j < |s| ==> s[i] != s[j]
  }

  /** A new element appended to a list without repeats keeps it without repeats. */
  lemma AppendFresh<T>(s: seq<T>, x: T)
    requires Distinct(s) && x !in s
    ensures Distinct(s + [x])
  {
    forall i, j | 0 <= i < j < |s| + 1 ensures (s + [x])[i] != (s + [x])[j] {
      if j == |s| { assert (s + [x])[i] == s[i] && s[i] in s; }
    }
  }

  /** With distinct messages, a message is returned exactly when its rule fires. */
  lemma {:induction false} SelectedMembership<T>(msgs: seq<T>, fires: seq<bool>, i: nat)
    requires |msgs| == |fires| && Distinct(msgs) && i < |msgs|
    ensures msgs[i] in Selected(msgs, fires) <==> fires[i]
  {
    var n := |msgs| - 1;
    var init, finit := msgs[..n], fires[..n];
    if i < n {
      SelectedMembership(init, finit, i);
      assert msgs[i] != msgs[n];
    } else {
      assert msgs[n] !in init by {
        forall j | 0 <= j < n ensures init[j] != msgs[n] { assert msgs[j] != msgs[n]; }
      }
    }
  }

  /** With distinct messages, nothing is returned twice. */
  lemma {:induction false} SelectedDistinct<T>(msgs: seq<T>, fires: seq<bool>)
    requires |msgs| == |fires| && Distinct(msgs)
    ensures Distinct(Selected(msgs, fires))
  {
    if msgs != [] {
      var n := |msgs| - 1;
      var init, finit := msgs[..n], fires[..n];
      SelectedDistinct(init, finit);
      assert msgs[n] !in Selected(init, finit) by {
        forall j | 0 <= j < n ensures init[j] != msgs[n] { assert msgs[j] != msgs[n]; }
      }
    }
  }

  /** Rules that fire come out in rule order. */
  lemma {:induction false} SelectedOrder<T>(msgs: seq<T>, fires: seq<bool>, i: nat, j: nat)
    requires |msgs| == |fires| && i < j < |msgs| && fires[i] && fires[j]
    ensures exists a, b :: (0 <= a < b < |Selected(msgs, fires)|
      && Selected(msgs, fires)[a] == msgs[i] && Selected(msgs, fires)[b] == msgs[j])
  {
    var n := |msgs| - 1;
    var init, finit := msgs[..n], fires[..n];
    var r0 := Selected(init, finit);
    if j < n {
      SelectedOrder(init, finit, i, j);
      var a, b :| 0 <= a < b < |r0| && r0[a] == init[i] && r0[b] == init[j];
      assert Selected(msgs, fires)[a] == msgs[i] && Selected(msgs, fires)[b] == msgs[j];
    } else {
      SelectedIndex(init, finit, i);
      var a :| 0 <= a < |r0| && r0[a] == init[i];
      assert Selected(msgs, fires)[a] == msgs[i] && Selected(msgs, fires)[|r0|] == msgs[j];
    }
  }

  /** A rule that fires has its message somewhere in the result. */
  lemma {:induction false} SelectedIndex<T>(msgs: seq<T>, fires: seq<bool>, i: nat)
    requires |msgs| == |fires| && i < |msgs| && fires[i]
    ensures exists a :: 0 <= a < |Selected(msgs, fires)| && Selected(msgs, fires)[a] == msgs[i]
  {
    var n := |msgs| - 1;
    var init, finit := msgs[..n], fires[..n];
    var r0 := Selected(init, finit);
    if i < n {
      SelectedIndex(init, finit, i);
      var a :| 0 <= a < |r0| && r0[a] == init[i];
      assert Selected(msgs, fires)[a] == msgs[i];
    } else {
      assert Selected(msgs, fires)[|r0|] == msgs[i];
    }
  }

  /** Nothing fires exactly when nothing is returned. */
  lemma {:induction false} SelectedEmpty<T>(msgs: seq<T>, fires: seq<bool>)
    requires |msgs| == |fires|
    ensures Selected(msgs, fires) == [] <==> forall i :: 0 <= i < |fires| ==> !fires[i]
  {
    if msgs != [] {
      var n := |msgs| - 1;
      SelectedEmpty(msgs[..n], fires[..n]);
      assert forall i :: 0 <= i < n ==> fires[..n][i] == fires[i];
    }
  }

  /** `len([x for x in s if p(x)])` */
  function CountIf<T>(s: seq<T>, p: T -> bool): (n: nat)
    ensures n <= |s|
    ensures n == 0 <==> forall i :: 0 <= i < |s| ==> !p(s[i])
  {
    if s == [] then 0 else CountIf(s[..|s| - 1], p) + (if p(s[|s| - 1]) then 1 else 0)
  }
}
