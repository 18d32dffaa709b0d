/** What becomes of the calls on a concurrent object: each is under way in one thread, or has returned once. */
module CallHistory {
  import opened Options

  /** made are all calls, open the call each thread is in, and returned the calls that returned. */
  ghost predicate Accounted<C>(made: seq<C>, open: seq<Option<C>>, returned: seq<C>) {
    && (forall i :: 0 <= i < |made| ==> Some(made[i]) in open || made[i] in returned)
    && (forall t :: 0 <= t < |open| && open[t].Some? ==> open[t].value in made && open[t].value !in returned)
    && (forall k :: 0 <= k < |returned| ==> returned[k] in made)
    && (forall i, j :: 0 <= i < j < |made| ==> made[i] != made[j])
    && (forall t, u :: 0 <= t < u < |open| && open[t].Some? ==> open[t] != open[u])
    && forall j, k :: 0 <= j < k < |returned| ==> returned[j] != returned[k]
  }

  lemma CallInvoked<C>(made: seq<C>, open: seq<Option<C>>, returned: seq<C>, t: nat, call: C)
    requires Accounted(made, open, returned) && t < |open| && open[t].None? && call !in made
    ensures Accounted(made + [call], open[t := Some(call)], returned)
  {
    var made', open' := made + [call], open[t := Some(call)];
    assert open'[t] == Some(call) && made'[|made|] == call;
    forall i | 0 <= i < |made'| ensures Some(made'[i]) in open' || made'[i] in returned {
      if i < |made| && made[i] !in returned {
        var u :| 0 <= u < |open| && open[u] == Some(made[i]);
        assert open'[u] == open[u];
      }
    }
    forall c | c in made ensures c in made' {}
    forall k | 0 <= k < |returned| ensures returned[k] != call && returned[k] in made' { assert returned[k] in made; }
  }

  lemma CallReturned<C>(made: seq<C>, open: seq<Option<C>>, returned: seq<C>, t: nat)
    requires Accounted(made, open, returned) && t < |open| && open[t].Some?
    ensures Accounted(made, open[t := None], returned + [open[t].value])
  {
    var call, open' := open[t].value, open[t := None];
    var returned' := returned + [call];
    assert returned'[|returned|] == call;
    forall i | 0 <= i < |made| ensures Some(made[i]) in open' || made[i] in returned' {
      if made[i] in returned {
        var k :| 0 <= k < |returned| && returned[k] == made[i];
        assert returned'[k] == made[i];
      } else if made[i] != call {
        var u :| 0 <= u < |open| && open[u] == Some(made[i]);
        assert open'[u] == open[u];
      }
    }
    forall u | 0 <= u < |open'| && open'[u].Some? ensures open'[u].value in made && open'[u].value !in returned' {
      assert open[u].value !in returned && open[u] != open[t];
    }
    forall k | 0 <= k < |returned'| ensures returned'[k] in made {}
  }
}
