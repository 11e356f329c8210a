/** `sendPush`: send one notification to every device a user registered, then drop
    the tokens the messaging service reports as invalid or unregistered. The
    service's answer is an input: one result per token, in the order the tokens
    were sent, or nothing when the send throws (the error is logged and
    swallowed). */
module Push {
  import opened Base
  import opened Records
  import opened Store

  const INVALID_TOKEN := "messaging/invalid-registration-token"
  const NOT_REGISTERED := "messaging/registration-token-not-registered"

  /** One entry of `response.responses`: a success, or a failure with an optional
      error code. */
  datatype SendResult = Delivered | Failed(code: Option<string>)

  /** A failure that says the token is no longer any good. */
  predicate Unregisters(r: SendResult) {
    r.Failed? && r.code.Some? && (r.code.value == INVALID_TOKEN || r.code.value == NOT_REGISTERED)
  }

  /** `user.fcmTokens.map(t => t.token)`. */
  function Tokens(ts: seq<FcmToken>): (r: seq<string>)
    ensures |r| == |ts| && forall i | 0 <= i < |ts| :: r[i] == ts[i].token
  {
    seq(|ts|, i requires 0 <= i < |ts| => ts[i].token)
  }

  /** The tokens whose result unregisters them, in the order sent. */
  function InvalidTokens(tokens: seq<string>, results: seq<SendResult>): (r: seq<string>)
    requires |results| == |tokens|
    ensures |r| <= |tokens|
    ensures forall t :: t in r <==> exists i | 0 <= i < |tokens| :: Unregisters(results[i]) && tokens[i] == t
    decreases |tokens|
  {
    if tokens == [] then []
    else
      var n := |tokens| - 1;
      var r := InvalidTokens(tokens[..n], results[..n]) + (if Unregisters(results[n]) then [tokens[n]] else []);
      assert forall t :: t in r <==> exists i | 0 <= i < |tokens| :: Unregisters(results[i]) && tokens[i] == t by {
        forall t ensures t in r <==> exists i | 0 <= i < |tokens| :: Unregisters(results[i]) && tokens[i] == t {
          if t in r && t !in InvalidTokens(tokens[..n], results[..n]) {
            assert Unregisters(results[n]) && tokens[n] == t;
          }
          if t in InvalidTokens(tokens[..n], results[..n]) {
            var i :| 0 <= i < n && Unregisters(results[..n][i]) && tokens[..n][i] == t;
            assert Unregisters(results[i]) && tokens[i] == t;
          }
        }
      }
      r
  }

  /** The `forEach` over the results that collects the invalid tokens. */
  method SelectInvalid(tokens: seq<string>, results: seq<SendResult>) returns (invalid: seq<string>)
    requires |results| == |tokens|
    ensures invalid == InvalidTokens(tokens, results)
  {
    invalid := [];
    var idx := 0;
    while idx < |results|
      invariant 0 <= idx <= |results|
      invariant invalid == InvalidTokens(tokens[..idx], results[..idx])
    {
      if results[idx].Failed? {
        var code := results[idx].code;
        if code == Some(INVALID_TOKEN) || code == Some(NOT_REGISTERED) {
          invalid := invalid + [tokens[idx]];
        }
      }
      assert tokens[..idx + 1][..idx] == tokens[..idx] && results[..idx + 1][..idx] == results[..idx];
      idx := idx + 1;
    }
    assert tokens[..idx] == tokens && results[..idx] == results;
  }

  /** The token list `sendPush` saves for a user holding `ts`, or None when it saves
      nothing: the push service is off, there are no tokens, the send threw, or no
      token was reported invalid. */
  function PrunedTokens(ts: seq<FcmToken>, firebase: bool, results: Option<seq<SendResult>>): (r: Option<seq<FcmToken>>)
    requires results.Some? ==> |results.value| == |ts|
    ensures r.Some? <==> firebase && ts != [] && results.Some? && InvalidTokens(Tokens(ts), results.value) != []
    ensures r.Some? ==> forall x :: x in r.value <==> x in ts && x.token !in InvalidTokens(Tokens(ts), results.value)
  {
    if !firebase || ts == [] || results.None? then None
    else
      var invalid := InvalidTokens(Tokens(ts), results.value);
      if invalid == [] then None else Some(Prune(ts, (set t | t in invalid)))
  }

  /** `sendPush(user, ...)` for the stored user `me`: the tokens it sends to (None
      when it returns before sending), and whether it saved the user. */
  method SendPush(db: Db, firebase: bool, me: Id, results: Option<seq<SendResult>>) returns (sent: Option<seq<string>>, saved: bool)
    requires me < |db.users|
    requires results.Some? ==> |results.value| == |db.users[me].fcmTokens|
    modifies db
    ensures sent.Some? <==> firebase && old(db.users[me].fcmTokens) != []
    ensures sent.Some? ==> sent.value == Tokens(old(db.users[me].fcmTokens))
    ensures var r := PrunedTokens(old(db.users[me].fcmTokens), firebase, results);
      && saved == r.Some?
      && db.Snapshot() == old(db.Snapshot()).(users := if r.Some? then old(db.users)[me := old(db.users[me]).(fcmTokens := r.value)] else old(db.users))
  {
    saved := false;
    if !firebase {
      return None, false;
    }
    var user := new UserDocument.Load(db.users[me]);
    if user.fcmTokens == [] {
      return None, false;
    }
    var tokens := Tokens(user.fcmTokens);
    sent := Some(tokens);
    if results.None? {
      return;
    }
    var invalid := SelectInvalid(tokens, results.value);
    if |invalid| > 0 {
      user.fcmTokens := Prune(user.fcmTokens, set t | t in invalid);
      db.users := db.users[me := user.Record()];
      saved := true;
    }
  }

  /** A save drops at least one entry, and the saved list holds no token reported
      invalid. */
  lemma PruneDropsInvalid(ts: seq<FcmToken>, firebase: bool, results: Option<seq<SendResult>>)
    requires results.Some? ==> |results.value| == |ts|
    requires PrunedTokens(ts, firebase, results).Some?
    ensures var r := PrunedTokens(ts, firebase, results).value;
      && |r| < |ts|
      && forall i | 0 <= i < |r| :: r[i].token !in InvalidTokens(Tokens(ts), results.value)
  {
    var invalid := InvalidTokens(Tokens(ts), results.value);
    var t := invalid[0];
    assert t in invalid;
    var i :| 0 <= i < |ts| && Unregisters(results.value[i]) && Tokens(ts)[i] == t;
    PruneShrinks(ts, (set t | t in invalid), i);
    var r := PrunedTokens(ts, firebase, results).value;
    forall j | 0 <= j < |r| ensures r[j].token !in invalid {
      assert r[j] in r;
    }
  }

  /** Removing at least one entry shortens the list. */
  lemma {:induction false} PruneShrinks(ts: seq<FcmToken>, bad: set<string>, i: nat)
    requires i < |ts| && ts[i].token in bad
    ensures |Prune(ts, bad)| < |ts|
    decreases |ts|
  {
    if i > 0 {
      PruneShrinks(ts[1..], bad, i - 1);
    }
  }

  /** Pruning twice with the same tokens prunes once. */
  lemma PruneIdempotent(ts: seq<FcmToken>, bad: set<string>)
    ensures Prune(Prune(ts, bad), bad) == Prune(ts, bad)
  {
    var r := Prune(ts, bad);
    forall i | 0 <= i < |r| ensures r[i].token !in bad {
      assert r[i] in r;
    }
    PruneNothing(r, bad);
  }

  /** When every device received the notification nothing is saved. */
  lemma AllDeliveredSavesNothing(ts: seq<FcmToken>, firebase: bool, results: seq<SendResult>)
    requires |results| == |ts| && forall i | 0 <= i < |results| :: results[i] == Delivered
    ensures PrunedTokens(ts, firebase, Some(results)).None?
  {
    NothingUnregistered(Tokens(ts), results);
  }

  /** Without a result that unregisters, no token is selected. */
  lemma {:induction false} NothingUnregistered(tokens: seq<string>, results: seq<SendResult>)
    requires |results| == |tokens| && forall i | 0 <= i < |results| :: !Unregisters(results[i])
    ensures InvalidTokens(tokens, results) == []
    decreases |tokens|
  {
    if tokens != [] {
      var n := |tokens| - 1;
      NothingUnregistered(tokens[..n], results[..n]);
    }
  }

  /** A save after pruning leaves every other user, and the user's identity,
      as they were, so the store stays consistent. */
  lemma SendPushKeepsValid(d: Data, me: Id, ts: seq<FcmToken>)
    requires Valid(d) && me < |d.users|
    ensures Valid(d.(users := d.users[me := d.users[me].(fcmTokens := ts)]))
  {
    var d2 := d.(users := d.users[me := d.users[me].(fcmTokens := ts)]);
    forall j | 0 <= j < |d2.vehicles| ensures VehicleFits(d2, d2.vehicles[j]) {
      assert VehicleFits(d, d.vehicles[j]);
    }
  }
}
