/** The older injector's filter on server rule queries: the wrapper stands
    between Steam and the game's ISteamMatchmakingServerRulesResponse, and
    cancels the query of a server that runs BattlEye or does not advertise
    the TEK Wrapper, so that the game never hears of it. */
module ServerRules {
  import Wrappers

  type Text = seq<char>

  /** The calls the wrapper makes on the game's callback and on the original
      matchmaking interface. */
  datatype Call =
    | Forwarded(rule: Text, value: Text)   // RulesResponded on the callback
    | CancelledQuery(handle: int)          // CancelServerQuery on the interface
    | FailedToRespond                      // RulesFailedToRespond on the callback
    | RefreshComplete                      // RulesRefreshComplete on the callback

  const BattlEyeRule: Text := "SERVERUSESBATTLEYE_b"
  const KeywordsRule: Text := "SEARCHKEYWORDS_s"
  const WrapperTag: Text := "TEKWrapper"

  /** The server reports BattlEye (any value that does not start with 'f',
      the empty one included), or its keywords do not start with the ten
      characters "TEKWrapper". Strings are compared as C strings without
      embedded NULs, so strcmp is equality and strncmp over ten characters
      is the prefix test. */
  predicate Rejects(rule: Text, value: Text)
  {
    || (rule == BattlEyeRule && (value == [] || value[0] != 'f'))
    || (rule == KeywordsRule && !(WrapperTag <= value))
  }

  /** server_rules_callback_wrapper, from the moment the query is started
      with the game's callback attached. */
  class CallbackWrapper {
    /** original_callback is not NULL. */
    var attached: bool
    const queryHandle: int
    /** The calls made so far, oldest first. */
    var calls: seq<Call>
    /** HeapFree has released the wrapper. */
    var freed: bool

    constructor (queryHandle: int)
      ensures attached && this.queryHandle == queryHandle && calls == [] && !freed
    {
      attached, this.queryHandle, calls, freed := true, queryHandle, [], false;
    }

    /** rules_responded. A rejecting rule cancels the query, tells the game
        the server failed to respond and detaches the callback; the cancel
        branch calls the callback without checking it, so it must still be
        attached then. Other rules go to the callback while it is attached. */
    method RulesResponded(rule: Text, value: Text)
      requires !freed
      requires Rejects(rule, value) ==> attached
      modifies this
      ensures !freed
      ensures Rejects(rule, value) ==> !attached && calls == old(calls) + [CancelledQuery(queryHandle), FailedToRespond]
      ensures !Rejects(rule, value) ==>
        (attached == old(attached) &&
         calls == old(calls) + (if old(attached) then [Forwarded(rule, value)] else []))
    {
      if Rejects(rule, value) {
        calls := calls + [CancelledQuery(queryHandle), FailedToRespond];
        attached := false;
      } else if attached {
        calls := calls + [Forwarded(rule, value)];
      }
    }

    /** rules_failed_to_respond: passed on if the callback is attached, then
        the wrapper is freed. */
    method RulesFailedToRespond()
      requires !freed
      modifies this
      ensures freed && attached == old(attached)
      ensures calls == old(calls) + (if old(attached) then [FailedToRespond] else [])
    {
      if attached {
        calls := calls + [FailedToRespond];
      }
      freed := true;
    }

    /** rules_refresh_complete: passed on if the callback is attached, then
        the wrapper is freed. */
    method RulesRefreshComplete()
      requires !freed
      modifies this
      ensures freed && attached == old(attached)
      ensures calls == old(calls) + (if old(attached) then [RefreshComplete] else [])
    {
      if attached {
        calls := calls + [RefreshComplete];
      }
      freed := true;
    }

    /** Steam delivering a server's rules one by one, stopping after the
        first rejecting rule (a cancelled query delivers nothing more). */
    method Deliver(rules: seq<(Text, Text)>)
      requires !freed && attached
      modifies this
      ensures !freed
      ensures calls == old(calls) + Delivered(queryHandle, rules)
      ensures attached == !Rejected(rules)
    {
      var k := 0;
      while k < |rules| && !Rejects(rules[k].0, rules[k].1)
        invariant 0 <= k <= |rules| && attached && !freed
        invariant forall j :: 0 <= j < k ==> !Rejects(rules[j].0, rules[j].1)
        invariant calls == old(calls) + Forwards(rules[..k])
      {
        RulesResponded(rules[k].0, rules[k].1);
        assert rules[..k + 1] == rules[..k] + [rules[k]];
        ForwardsAppend(rules[..k], [rules[k]]);
        k := k + 1;
      }
      if k < |rules| {
        RulesResponded(rules[k].0, rules[k].1);
      }
      DeliveredSplit(queryHandle, rules, k);
      Wrappers.Associative(old(calls), Forwards(rules[..k]), [CancelledQuery(queryHandle), FailedToRespond]);
    }
  }

  /** The forwarding of rules none of which rejects. */
  function Forwards(rules: seq<(Text, Text)>): seq<Call>
  {
    if rules == [] then [] else [Forwarded(rules[0].0, rules[0].1)] + Forwards(rules[1..])
  }

  lemma {:induction false} ForwardsAppend(a: seq<(Text, Text)>, b: seq<(Text, Text)>)
    ensures Forwards(a + b) == Forwards(a) + Forwards(b)
  {
    if a != [] {
      assert (a + b)[1..] == a[1..] + b;
      ForwardsAppend(a[1..], b);
    } else {
      assert a + b == b;
    }
  }

  /** Some rule of the sequence rejects the server. */
  predicate Rejected(rules: seq<(Text, Text)>)
  {
    exists j :: 0 <= j < |rules| && Rejects(rules[j].0, rules[j].1)
  }

  /** What the game and the interface see of a server's rules: each rule is
      forwarded until one rejects the server, which turns into a cancel of
      the query and a failure report. */
  function Delivered(handle: int, rules: seq<(Text, Text)>): seq<Call>
  {
    if rules == [] then []
    else if Rejects(rules[0].0, rules[0].1) then [CancelledQuery(handle), FailedToRespond]
    else [Forwarded(rules[0].0, rules[0].1)] + Delivered(handle, rules[1..])
  }

  /** With the first rejecting rule at k (or none, k = |rules|), the rules
      before it are forwarded in order and nothing after it is. */
  lemma {:induction false} DeliveredSplit(handle: int, rules: seq<(Text, Text)>, k: nat)
    requires k <= |rules|
    requires forall j :: 0 <= j < k ==> !Rejects(rules[j].0, rules[j].1)
    requires k < |rules| ==> Rejects(rules[k].0, rules[k].1)
    ensures Delivered(handle, rules)
      == Forwards(rules[..k]) + (if k < |rules| then [CancelledQuery(handle), FailedToRespond] else [])
  {
    if k == 0 {
      assert rules[..0] == [];
    } else {
      assert rules[1..][..k - 1] == rules[..k][1..];
      DeliveredSplit(handle, rules[1..], k - 1);
    }
  }

  /** The query is cancelled exactly when some rule rejects the server, and
      no rule that rejects it ever reaches the game. */
  lemma {:induction false} DeliveredFilters(handle: int, rules: seq<(Text, Text)>)
    ensures CancelledQuery(handle) in Delivered(handle, rules) <==> Rejected(rules)
    ensures forall c :: c in Delivered(handle, rules) && c.Forwarded? ==> !Rejects(c.rule, c.value)
  {
    if rules != [] && !Rejects(rules[0].0, rules[0].1) {
      DeliveredFilters(handle, rules[1..]);
      if Rejected(rules) {
        var j :| 0 <= j < |rules| && Rejects(rules[j].0, rules[j].1);
        assert j > 0 && rules[1..][j - 1] == rules[j];
      }
      if Rejected(rules[1..]) {
        var j :| 0 <= j < |rules[1..]| && Rejects(rules[1..][j].0, rules[1..][j].1);
        assert rules[j + 1] == rules[1..][j];
      }
    } else if rules != [] {
      assert Rejects(rules[0].0, rules[0].1);
    }
  }
}
