/** The header's auth-gate effect: from the profile query's state, the two
    `localStorage` entries `authCheckTime` and `timeLeft`, the clock and the
    configured `NEXT_PUBLIC_TIMER_AUTH`, decide whether to open the sign-in modal
    at once, arm a timer (and for how long), or do nothing. The clock, storage
    and configuration are parameters; the timer itself is outside this module. */
module AuthGate {
  import opened Common
  import opened JsNumber

  const AuthCheckKey := "authCheckTime"
  const TimeLeftKey := "timeLeft"
  /** Milliseconds granted when no timeout is configured. */
  const DefaultTimeout := 30000

  datatype GateAction =
    | Skip                 // the effect's condition does not hold
    | OpenAuth             // `setModalType('auth')` without arming a timer
    | Arm(delay: Num)      // `setTimeout(..., delay)` and two storage writes

  /** `localStorage.getItem(key)`. */
  function GetItem(storage: map<string, string>, key: string): (r: Option<string>)
    ensures r.Some? <==> key in storage
    ensures r.Some? ==> r.value == storage[key]
  {
    if key in storage then Some(storage[key]) else None
  }

  /** JavaScript truthiness of `getItem`'s result: present and non-empty, so the
      string "0" counts as present. */
  predicate Present(item: Option<string>) {
    item.Some? && item.value != ""
  }

  /** `Number(item)` where `Number(null)` is 0. */
  function ItemNumber(item: Option<string>): Num {
    match item
    case None => Finite(0)
    case Some(s) => StringToNumber(s)
  }

  /** `Number(process.env.NEXT_PUBLIC_TIMER_AUTH)` where `Number(undefined)` is NaN. */
  function EnvNumber(env: Option<string>): Num {
    match env
    case None => NaN
    case Some(s) => StringToNumber(s)
  }

  /** The profile has an `id` in JavaScript's sense: present and not 0. */
  predicate HasId(profileId: Option<int>) {
    profileId.Some? && profileId.value != 0
  }

  /** One run of the effect. `timeLeft` starts as `Number(env) || 30000`, is
      replaced by the stored `timeLeft` when that is present, and is then
      recomputed from the stored start as `Math.max(0, Number(env) || 30000 - elapsed)`,
      which JavaScript groups as `Number(env) || (30000 - elapsed)`. */
  function Step(isLoading: bool, profileId: Option<int>, savedTime: Option<string>,
                currentTimeLeft: Option<string>, now: int, env: Option<string>): (r: GateAction)
    // the gate is evaluated only once loading has finished and no profile id is known
    ensures r == Skip <==> isLoading || HasId(profileId)
    // the modal opens at once exactly when a nonzero start is stored and the stored time left reads as 0
    ensures r == OpenAuth <==>
      && !isLoading && !HasId(profileId)
      && Truthy(ItemNumber(savedTime))
      && Present(currentTimeLeft) && StringToNumber(currentTimeLeft.value) == Finite(0)
    // with a stored start the delay is clamped at 0 (or NaN); a truthy configured value wins over the elapsed time
    ensures r.Arm? && Present(savedTime) ==>
      r.delay == MaxZero(Or(EnvNumber(env), Minus(Finite(DefaultTimeout), Minus(Finite(now), ParseInt(savedTime.value)))))
    // without a stored start the delay is the stored time left if present, otherwise the configured or default timeout
    ensures r.Arm? && !Present(savedTime) ==>
      r.delay == if Present(currentTimeLeft) then StringToNumber(currentTimeLeft.value)
                 else Or(EnvNumber(env), Finite(DefaultTimeout))
  {
    if isLoading || HasId(profileId) then Skip
    else
      var initial := Or(EnvNumber(env), Finite(DefaultTimeout));
      var timeLeft := if Present(currentTimeLeft) then StringToNumber(currentTimeLeft.value) else initial;
      if Truthy(ItemNumber(savedTime)) && timeLeft == Finite(0) then OpenAuth
      else if Present(savedTime) then
        var elapsed := Minus(Finite(now), ParseInt(savedTime.value));
        Arm(MaxZero(Or(EnvNumber(env), Minus(Finite(DefaultTimeout), elapsed))))
      else Arm(timeLeft)
  }

  /** The two `localStorage.setItem` calls made after arming. */
  function Written(storage: map<string, string>, now: int, delay: Num): (s: map<string, string>)
    ensures s.Keys == storage.Keys + {AuthCheckKey, TimeLeftKey}
    ensures forall k :: k in storage && k != AuthCheckKey && k != TimeLeftKey ==> s[k] == storage[k]
  {
    storage[AuthCheckKey := IntToString(now)][TimeLeftKey := NumToString(delay)]
  }

  /** After arming, storage holds the clock reading and the armed delay, and the
      next run reads them back as exactly those numbers. */
  lemma WrittenReadsBack(storage: map<string, string>, now: int, delay: Num)
    ensures var s := Written(storage, now, delay);
      && GetItem(s, AuthCheckKey) == Some(s[AuthCheckKey])
      && GetItem(s, TimeLeftKey) == Some(s[TimeLeftKey])
      && s[AuthCheckKey] != "" && s[TimeLeftKey] != ""
      && StringToNumber(s[AuthCheckKey]) == Finite(now)
      && ParseInt(s[AuthCheckKey]) == Finite(now)
      && StringToNumber(s[TimeLeftKey]) == delay
  {
    var s := Written(storage, now, delay);
    WrittenHolds(storage, now, delay);
    NumberRoundTrip(Finite(now));
    NumberRoundTrip(delay);
    ParseIntRoundTrip(now);
    assert s[TimeLeftKey] != "" by {
      if delay.NaN? { assert s[TimeLeftKey] == "NaN"; } else { assert s[TimeLeftKey] == IntToString(delay.v); }
    }
  }

  lemma WrittenHolds(storage: map<string, string>, now: int, delay: Num)
    ensures var s := Written(storage, now, delay);
      && GetItem(s, AuthCheckKey) == Some(s[AuthCheckKey])
      && GetItem(s, TimeLeftKey) == Some(s[TimeLeftKey])
      && s[AuthCheckKey] == IntToString(now) && s[TimeLeftKey] == NumToString(delay)
  {
  }

  /** A run that finds a stored start reading as `start` and does not open the
      modal arms `max(0, Number(env) || (30000 - (now - start)))`. */
  lemma ArmedFromStart(saved: string, timeLeft: Option<string>, start: int, now: int, env: Option<string>)
    requires saved != "" && ParseInt(saved) == Finite(start)
    requires Step(false, None, Some(saved), timeLeft, now, env) != OpenAuth
    ensures Step(false, None, Some(saved), timeLeft, now, env)
         == Arm(MaxZero(Or(EnvNumber(env), Finite(DefaultTimeout - (now - start)))))
  {
  }

  /** The run after one that stored a start reading as `t1` and a time left
      reading as `d1`. */
  lemma RunAfterArming(saved: string, left: string, t1: int, d1: Num, t2: int)
    requires t1 != 0 && saved != "" && left != ""
    requires StringToNumber(saved) == Finite(t1) && ParseInt(saved) == Finite(t1)
    requires StringToNumber(left) == d1
    ensures var r := Step(false, None, Some(saved), Some(left), t2, None);
      && (d1 == Finite(0) ==> r == OpenAuth)
      && (d1 != Finite(0) ==> r == Arm(MaxZero(Finite(DefaultTimeout - (t2 - t1)))))
  {
    if d1 != Finite(0) {
      ArmedFromStart(saved, Some(left), t1, t2, None);
    }
  }

  /** "0" is a present value that reads as the number 0. */
  lemma ZeroReadsAsZero()
    ensures Present(Some("0")) && StringToNumber("0") == Finite(0)
  {
    IntReadsBack(0);
    assert IntToString(0) == "0";
  }

  /** A nonzero stored start with a stored time left of "0" opens the modal at
      once: "0" is a present value although it reads as the number 0. */
  lemma ZeroTimeLeftOpensAtOnce(start: int, now: int, env: Option<string>)
    requires start != 0
    ensures Step(false, None, Some(IntToString(start)), Some("0"), now, env) == OpenAuth
  {
    IntReadsBack(start);
    ZeroReadsAsZero();
  }

  /** With a stored start and no truthy configured timeout, the armed delay is
      `max(0, 30000 - (now - start))`: never negative, and at most 30000 when the
      clock has not gone back. */
  lemma DefaultDelayWindow(start: int, timeLeft: Option<string>, now: int, env: Option<string>)
    requires !Truthy(EnvNumber(env))
    requires Step(false, None, Some(IntToString(start)), timeLeft, now, env) != OpenAuth
    ensures var d := if DefaultTimeout - (now - start) < 0 then 0 else DefaultTimeout - (now - start);
      && Step(false, None, Some(IntToString(start)), timeLeft, now, env) == Arm(Finite(d))
      && 0 <= d
      && (now >= start ==> d <= DefaultTimeout)
  {
    ParseIntRoundTrip(start);
    ArmedFromStart(IntToString(start), timeLeft, start, now, env);
  }

  /** A truthy configured timeout `c` is armed as `max(0, c)` whatever the elapsed
      time: the precedence of `||` over `-` makes the stored start irrelevant. */
  lemma ConfiguredTimeoutIgnoresElapsed(c: int, start: string, timeLeft: Option<string>, now: int)
    requires c != 0 && start != ""
    requires Step(false, None, Some(start), timeLeft, now, Some(IntToString(c))) != OpenAuth
    ensures Step(false, None, Some(start), timeLeft, now, Some(IntToString(c)))
         == Arm(Finite(if c < 0 then 0 else c))
  {
    NumberRoundTrip(Finite(c));
  }

  /** The next mount after arming at `t1` (no configured timeout, no profile):
      if the armed delay was 0 the modal opens at once; otherwise the new delay
      is counted from `t1`, the time of the previous mount, and not from the
      first visit, so every mount postpones the deadline to 30000 ms after it. */
  lemma NextMount(storage: map<string, string>, t1: int, d1: Num, t2: int)
    requires t1 != 0
    ensures var s := Written(storage, t1, d1);
      var r := Step(false, None, GetItem(s, AuthCheckKey), GetItem(s, TimeLeftKey), t2, None);
      && (d1 == Finite(0) ==> r == OpenAuth)
      && (d1 != Finite(0) ==> r == Arm(MaxZero(Finite(DefaultTimeout - (t2 - t1)))))
  {
    var s := Written(storage, t1, d1);
    WrittenReadsBack(storage, t1, d1);
    RunAfterArming(s[AuthCheckKey], s[TimeLeftKey], t1, d1, t2);
  }

  /** Concretely: mounts at 1000, 21000 and 26000 ms arm 30000, 10000 and 25000
      ms, so the modal is due at 51000 ms rather than 31000 ms after the first. */
  lemma ReloadsPostponeTheDeadline()
    ensures var s0: map<string, string> := map[];
      var r1 := Step(false, None, GetItem(s0, AuthCheckKey), GetItem(s0, TimeLeftKey), 1000, None);
      var s1 := Written(s0, 1000, Finite(30000));
      var r2 := Step(false, None, GetItem(s1, AuthCheckKey), GetItem(s1, TimeLeftKey), 21000, None);
      var s2 := Written(s1, 21000, Finite(10000));
      var r3 := Step(false, None, GetItem(s2, AuthCheckKey), GetItem(s2, TimeLeftKey), 26000, None);
      r1 == Arm(Finite(30000)) && r2 == Arm(Finite(10000)) && r3 == Arm(Finite(25000))
  {
    NextMount(map[], 1000, Finite(30000), 21000);
    NextMount(Written(map[], 1000, Finite(30000)), 21000, Finite(10000), 26000);
  }
}
