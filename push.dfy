/** Multicast push and the clean-up of device tokens that failed
    (notifications/fcm_admin.py). The push service is a parameter: what
    `send_multicast` answered, or that it raised. */
module Push {
  import opened Common
  import opened Users

  /** A registered device: its owner and its push token. */
  datatype UserDevice = UserDevice(user: UserId, token: string)

  /** The message handed to the push service. */
  datatype Multicast = Multicast(tokens: seq<string>, title: string, body: string, data: map<string, string>)

  /** What `send_multicast` did: raised, or answered with one success flag
      per response. */
  datatype SendReply = SendRaised | Replied(successes: seq<bool>)

  /** The MulticastMessage: `data or {}` turns a missing payload into the
      empty map. */
  function BuildMulticast(tokens: seq<string>, title: string, body: string, data: Option<map<string, string>>)
    : (m: Multicast)
    ensures m.tokens == tokens && m.title == title && m.body == body
    ensures data.Some? ==> m.data == data.value
    ensures data.None? ==> m.data == map[]
  {
    Multicast(tokens, title, body, data.GetOr(map[]))
  }

  /** The tokens whose response among the first `upto` failed. */
  function FailedTokens(tokens: seq<string>, successes: seq<bool>, upto: nat): (r: set<string>)
    requires upto <= |successes| && upto <= |tokens|
    ensures forall t :: t in r <==> exists i :: 0 <= i < upto && !successes[i] && tokens[i] == t
  {
    set i | 0 <= i < upto && !successes[i] :: tokens[i]
  }

  /** The first failed response that has no token at its position, where
      `device_tokens[idx]` raises IndexError. */
  function FirstUnmatchedFailure(tokens: seq<string>, successes: seq<bool>): (r: Option<nat>)
    ensures r.Some? ==> |tokens| <= r.value < |successes| && !successes[r.value]
    ensures r.Some? ==> forall i :: |tokens| <= i < r.value ==> successes[i]
    ensures r.None? <==> forall i :: |tokens| <= i < |successes| ==> successes[i]
  {
    if |tokens| > |successes| then None
    else
    var k := FindIndex(successes[|tokens|..], (b: bool) => !b);
    if k.None? then
      assert forall i :: |tokens| <= i < |successes| ==> successes[i] by {
        forall i | |tokens| <= i < |successes| ensures successes[i] {
          assert successes[|tokens|..][i - |tokens|] == successes[i];
        }
      }
      None
    else
      assert forall i :: |tokens| <= i < |tokens| + k.value ==> successes[i] by {
        forall i | |tokens| <= i < |tokens| + k.value ensures successes[i] {
          assert successes[|tokens|..][i - |tokens|] == successes[i];
        }
      }
      Some(|tokens| + k.value)
  }

  /** How many responses have a token at their position. The clean-up
      examines all of them, even when a later failure raises. */
  function Examined(tokens: seq<string>, successes: seq<bool>): (n: nat)
    ensures n <= |successes| && n <= |tokens|
    ensures n == |successes| || n == |tokens|
  {
    if |tokens| < |successes| then |tokens| else |successes|
  }

  /** The devices whose token is not in `failed`. */
  function Surviving(devices: seq<UserDevice>, failed: set<string>): (r: seq<UserDevice>)
    ensures forall d :: d in r <==> d in devices && d.token !in failed
  {
    Filter(devices, (d: UserDevice) => d.token !in failed)
  }

  /** The devices that survive a clean-up reaching response `upto`. */
  function Evicted(devices: seq<UserDevice>, tokens: seq<string>, successes: seq<bool>, upto: nat)
    : (r: seq<UserDevice>)
    requires upto <= |successes| && upto <= |tokens|
    ensures forall d :: d in r <==> d in devices && d.token !in FailedTokens(tokens, successes, upto)
  {
    Surviving(devices, FailedTokens(tokens, successes, upto))
  }

  /** `UserDevice.objects.filter(token=t).delete()` keeps the others. */
  function WithoutToken(t: string): UserDevice -> bool {
    (d: UserDevice) => d.token != t
  }

  /** A device keeps its row exactly when no examined failed response
      carries its token: successful tokens and tokens not in the call
      stay, and any owner's device with a failed token goes. */
  lemma EvictedSpec(devices: seq<UserDevice>, tokens: seq<string>, successes: seq<bool>, upto: nat, d: UserDevice)
    requires upto <= |successes| && upto <= |tokens|
    requires d in devices
    ensures (forall i :: 0 <= i < upto && tokens[i] == d.token ==> successes[i]) ==>
              d in Evicted(devices, tokens, successes, upto)
    ensures (exists i :: 0 <= i < upto && tokens[i] == d.token && !successes[i]) ==>
              d !in Evicted(devices, tokens, successes, upto)
  {
  }

  /** `send_push_notification` as written. The clean-up imports UserDevice
      from the notifications models, which define no such model; the
      ImportError raised at the first failed response is caught by the
      broad handler. So any failed response yields None and the device
      table is returned unchanged. */
  function SendAsWritten(devices: seq<UserDevice>, tokens: seq<string>, reply: SendReply)
    : (r: (Option<seq<bool>>, seq<UserDevice>))
    ensures r.1 == devices
    ensures r.0.Some? <==> tokens != [] && reply.Replied? && forall i :: 0 <= i < |reply.successes| ==> reply.successes[i]
    ensures r.0.Some? ==> r.0.value == reply.successes
  {
    if tokens == [] then (None, devices)
    else match reply
      case SendRaised => (None, devices)
      case Replied(successes) =>
        if FindIndex(successes, (b: bool) => !b).Some? then (None, devices)
        else (Some(successes), devices)
  }

  /** A stale token survives the send as written: its device is still
      there afterwards, although its response failed. */
  lemma StaleTokenSurvives()
    ensures var d := UserDevice(1, "stale");
            var r := SendAsWritten([d], ["stale"], Replied([false]));
            r.0.None? && d in r.1
  {
  }

  /** The device table that the clean-up deletes from. */
  class DeviceTable {
    var devices: seq<UserDevice>

    constructor (devices: seq<UserDevice>)
      ensures this.devices == devices
    {
      this.devices := devices;
    }

    /** `send_push_notification` with the clean-up it evidently intends
        (the device model importable). An empty token list returns None
        untouched; a raising send returns None untouched. Otherwise the
        responses are walked in order and each failed response deletes
        every device with that response's token; a failure past the last
        token raises IndexError, which is caught: None is returned and the
        deletions already made stay. */
    method Send(tokens: seq<string>, title: string, body: string, data: Option<map<string, string>>,
                reply: SendReply)
      returns (r: Option<seq<bool>>)
      modifies this
      ensures tokens == [] || reply.SendRaised? ==> r.None? && devices == old(devices)
      ensures tokens != [] && reply.Replied? ==>
                && devices == Evicted(old(devices), tokens, reply.successes, Examined(tokens, reply.successes))
                && (r.Some? <==> FirstUnmatchedFailure(tokens, reply.successes).None?)
                && (r.Some? ==> r.value == reply.successes)
    {
      if tokens == [] {
        return None;
      }
      var message := BuildMulticast(tokens, title, body, data);
      if reply.SendRaised? {
        return None;
      }
      var successes := reply.successes;
      var before := devices;
      var idx := 0;
      assert FailedTokens(tokens, successes, 0) == {};
      SurvivingAll(before, {});
      while idx < |successes|
        invariant 0 <= idx <= |successes|
        invariant forall i :: |tokens| <= i < idx ==> successes[i]
        invariant devices == Evicted(before, tokens, successes, if idx < |tokens| then idx else |tokens|)
      {
        if !successes[idx] {
          if idx >= |tokens| {
            return None;
          }
          Evict(before, tokens, successes, idx);
          devices := Filter(devices, WithoutToken(tokens[idx]));
        } else if idx < |tokens| {
          EvictSkip(before, tokens, successes, idx);
        }
        idx := idx + 1;
      }
      r := Some(successes);
    }
  }

  /** Examining one more response adds its token when it failed. */
  lemma FailedTokensStep(tokens: seq<string>, successes: seq<bool>, idx: nat)
    requires idx < |successes| && idx < |tokens|
    ensures FailedTokens(tokens, successes, idx + 1)
            == FailedTokens(tokens, successes, idx) + (if successes[idx] then {} else {tokens[idx]})
  {
  }

  /** Deleting one more token's devices is surviving one more failure. */
  lemma {:induction false} SurvivingStep(devices: seq<UserDevice>, failed: set<string>, t: string)
    ensures Filter(Surviving(devices, failed), WithoutToken(t)) == Surviving(devices, failed + {t})
  {
    if devices != [] {
      SurvivingStep(devices[1..], failed, t);
    }
  }

  /** One failed response removes its token's devices from the survivors. */
  lemma Evict(devices: seq<UserDevice>, tokens: seq<string>, successes: seq<bool>, idx: nat)
    requires idx < |successes| && idx < |tokens| && !successes[idx]
    ensures Filter(Evicted(devices, tokens, successes, idx), WithoutToken(tokens[idx]))
            == Evicted(devices, tokens, successes, idx + 1)
  {
    FailedTokensStep(tokens, successes, idx);
    SurvivingStep(devices, FailedTokens(tokens, successes, idx), tokens[idx]);
  }

  /** A successful response removes nothing. */
  lemma EvictSkip(devices: seq<UserDevice>, tokens: seq<string>, successes: seq<bool>, idx: nat)
    requires idx < |successes| && idx < |tokens| && successes[idx]
    ensures Evicted(devices, tokens, successes, idx) == Evicted(devices, tokens, successes, idx + 1)
  {
    FailedTokensStep(tokens, successes, idx);
    assert FailedTokens(tokens, successes, idx + 1) == FailedTokens(tokens, successes, idx);
  }

  /** Nothing is lost when no device carries a failed token. */
  lemma {:induction false} SurvivingAll(devices: seq<UserDevice>, failed: set<string>)
    requires forall d :: d in devices ==> d.token !in failed
    ensures Surviving(devices, failed) == devices
  {
    if devices != [] {
      SurvivingAll(devices[1..], failed);
    }
  }
}
