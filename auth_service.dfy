/**
 * The authentication service: a sliding fifteen-minute session kept in a
 * key-value store, a failed-attempt counter that locks authentication for five
 * minutes after three failures, and an unconditional reset on logout.
 *
 * The service's state is given twice. `State` is a value holding the three
 * in-memory fields and the three store entries, and the functions below are
 * the specification of each operation on it; the lemmas that relate several
 * operations are about these functions. `AuthService` is the class with the
 * same fields, whose methods update them step by step and are proved to do
 * what the functions say.
 *
 * The clock is a parameter (`now`, milliseconds since the epoch); so are the
 * sensor check, the biometric prompt's result, and the set of store calls
 * that throw during the operation (`failing`).
 */
module Auth {
  import opened Wrappers

  const SESSION_KEY: string := "secure_session"
  const AUTH_KEY: string := "auth_state"
  const BIOMETRIC_KEY: string := "biometric_state"
  /** The marker value written under `auth_state` and `biometric_state`. */
  const AUTHENTICATED: string := "authenticated"

  const MAX_ATTEMPTS: int := 3
  const LOCKOUT_DURATION: int := 300000
  const SESSION_TIMEOUT: int := 900000
  const MINUTE: int := 60000

  /** The prompt errors that count as the user backing out rather than failing. */
  const USER_CANCELLATION: string := "User cancellation"
  const USER_FALLBACK: string := "User fallback"

  const FACE_ID: string := "Face ID"
  const TOUCH_ID: string := "Touch ID"
  const BIOMETRIC_AUTHENTICATION: string := "Biometric Authentication"
  const DEVICE_AUTHENTICATION: string := "Device Authentication"

  /**
   * What `secure_session` holds: nothing (or the empty string), text that
   * does not parse, the text `null`, or a parsed record whose `expiry` may be
   * missing.
   */
  datatype SessionRecord = Absent | Corrupt | ParsesToNull | Session(expiry: Option<int>, timestamp: int)

  /** One call into the key-value store. */
  datatype StoreCall = GetItem(key: string) | SetItem(key: string) | RemoveItem(key: string)

  datatype BiometryType = FaceID | TouchID | Biometrics
  datatype Platform = IOS | Android | OtherOS

  /** The answer of the sensor check, or the check throwing. */
  datatype SensorQuery = Sensor(available: bool, biometryType: Option<BiometryType>) | SensorThrew

  /**
   * How the biometric prompt settles: success, failure with an error string,
   * the 30-second race lost to the timeout, or the prompt throwing.
   */
  datatype PromptResult = Succeeded | Failed(error: string) | TimedOut | PromptThrew

  /** The alert an operation shows, if any. */
  datatype Notice =
    | NoNotice
    | AccessLocked(waitMinutes: int)
    | SetupRequired
    | TooManyAttempts(lockMinutes: int)
    | AuthTimedOut
    | UnexpectedError

  /** The service's in-memory fields and its three store entries. */
  datatype State = State(
    failedAttempts: int,
    lockoutUntil: Option<int>,
    sessionExpiry: Option<int>,
    session: SessionRecord,
    authState: Option<string>,
    biometricState: Option<string>)

  /** A yes/no answer together with the state it leaves. */
  datatype Check = Check(yes: bool, next: State)

  /** The state after a failed attempt, and the alert it raises. */
  datatype Penalty = Penalty(next: State, notice: Notice)

  /** What `authenticate` returns, the alert it shows and the state it leaves. */
  datatype Outcome = Outcome(ok: bool, notice: Notice, next: State)

  /** JavaScript truthiness of a `number | null`: present and not zero. */
  predicate Truthy(n: Option<int>)
  {
    n.Some? && n.value != 0
  }

  /** `Math.ceil(ms / 60000)`: the least whole number of minutes covering `ms`. */
  function CeilMinutes(ms: int): (m: int)
    ensures (m - 1) * MINUTE < ms <= m * MINUTE
  {
    -((-ms) / MINUTE)
  }

  /**
   * The invariant the three in-memory fields keep: the counter stays within
   * 0..3, a lockout is set exactly when the counter has reached 3, and a set
   * lockout is a positive time.
   */
  predicate Inv(st: State)
  {
    && 0 <= st.failedAttempts <= MAX_ATTEMPTS
    && (st.lockoutUntil.Some? <==> st.failedAttempts == MAX_ATTEMPTS)
    && (st.lockoutUntil.Some? ==> st.lockoutUntil.value > 0)
  }

  /** A stored record that `isSessionValid` accepts at time `now`. */
  predicate Live(rec: SessionRecord, now: int)
  {
    rec.Session? && Truthy(rec.expiry) && now < rec.expiry.value
  }

  /** The state after process start: counters clear, the store as it was left. */
  function Initial(session: SessionRecord, authState: Option<string>, biometricState: Option<string>): (st: State)
    ensures Inv(st)
  {
    State(0, None, None, session, authState, biometricState)
  }

  /** `hasAuthenticatedBefore`: the read of `auth_state` succeeds and finds the marker. */
  function AuthenticatedBefore(st: State, failing: set<StoreCall>): bool
  {
    GetItem(AUTH_KEY) !in failing && st.authState == Some(AUTHENTICATED)
  }

  /**
   * `getRemainingSessionTime`: 0 when no expiry is cached; otherwise the
   * whole minutes until the cached expiry, rounded up and never negative.
   */
  function RemainingMinutes(sessionExpiry: Option<int>, now: int): (r: nat)
    ensures r > 0 <==> Truthy(sessionExpiry) && now < sessionExpiry.value
    ensures r > 0 ==> (r - 1) * MINUTE < sessionExpiry.value - now <= r * MINUTE
    ensures sessionExpiry == Some(now + SESSION_TIMEOUT) && now + SESSION_TIMEOUT != 0 ==> r == 15
  {
    if !Truthy(sessionExpiry) then 0
    else
      var m := CeilMinutes(sessionExpiry.value - now);
      if m > 0 then m else 0
  }

  /** `setAuthenticatedKey`: write the marker under `auth_state`; a failing write is swallowed. */
  function AuthKeySet(st: State, failing: set<StoreCall>): (r: State)
    ensures SetItem(AUTH_KEY) !in failing ==> AuthenticatedBefore(r, failing - {GetItem(AUTH_KEY)})
    ensures SetItem(AUTH_KEY) in failing ==> r == st
    ensures r.(authState := st.authState) == st
  {
    if SetItem(AUTH_KEY) in failing then st else st.(authState := Some(AUTHENTICATED))
  }

  /**
   * `extendSession`: rewrite the session to expire one timeout from `now` and
   * cache that expiry; if the write throws, nothing changes.
   */
  function ExtendedSession(st: State, now: nat, failing: set<StoreCall>): (r: State)
    ensures SetItem(SESSION_KEY) !in failing ==>
      && r.session == Session(Some(now + SESSION_TIMEOUT), now)
      && r.sessionExpiry == Some(now + SESSION_TIMEOUT)
      && RemainingMinutes(r.sessionExpiry, now) == 15
    ensures SetItem(SESSION_KEY) in failing ==> r == st
    ensures r.(session := st.session, sessionExpiry := st.sessionExpiry) == st
  {
    if SetItem(SESSION_KEY) in failing then st
    else st.(session := Session(Some(now + SESSION_TIMEOUT), now), sessionExpiry := Some(now + SESSION_TIMEOUT))
  }

  /** Removing `secure_session`; a failing removal leaves it in place. */
  function SessionRemoved(st: State, failing: set<StoreCall>): State
  {
    if RemoveItem(SESSION_KEY) in failing then st else st.(session := Absent)
  }

  /**
   * `isSessionValid`: the answer is yes exactly when the stored record can be
   * read and is live at `now`, and then the session is re-armed. It fails
   * closed: a missing record changes nothing, a corrupt or stale record is
   * removed, and no answer of no leaves a live session behind it. The
   * counters and the other two keys are never touched.
   */
  function SessionCheck(st: State, now: nat, failing: set<StoreCall>): (r: Check)
    ensures r.yes <==> GetItem(SESSION_KEY) !in failing && Live(st.session, now)
    ensures r.yes ==> r.next == ExtendedSession(st, now, failing)
    ensures !r.yes ==> r.next.sessionExpiry == st.sessionExpiry
    ensures !r.yes ==> r.next.session == st.session || r.next.session == Absent
    ensures !r.yes && GetItem(SESSION_KEY) !in failing ==> !Live(r.next.session, now)
    ensures st.session.Absent? ==> r == Check(false, st)
    ensures && (st.session.Corrupt? || (st.session.Session? && !Live(st.session, now)))
            && GetItem(SESSION_KEY) !in failing && RemoveItem(SESSION_KEY) !in failing
            ==> r == Check(false, st.(session := Absent))
    ensures r.next.(session := st.session, sessionExpiry := st.sessionExpiry) == st
  {
    if GetItem(SESSION_KEY) in failing then Check(false, st)
    else
      match st.session
      case Absent => Check(false, st)
      case Corrupt => Check(false, SessionRemoved(st, failing))
      case ParsesToNull => Check(false, st)
      case Session(expiry, _) =>
        if Truthy(expiry) && now < expiry.value then Check(true, ExtendedSession(st, now, failing))
        else Check(false, SessionRemoved(st, failing))
  }

  /**
   * `createSession`: write a session expiring one timeout from `now` and,
   * alongside it, the `auth_state` marker. Only when the session write
   * succeeds is the expiry cached and the counter reset; otherwise the
   * operation throws (`yes` is false).
   */
  function SessionCreation(st: State, now: nat, failing: set<StoreCall>): (r: Check)
    ensures r.yes <==> SetItem(SESSION_KEY) !in failing
    ensures r.yes ==> && r.next.session == Session(Some(now + SESSION_TIMEOUT), now)
                      && r.next.sessionExpiry == Some(now + SESSION_TIMEOUT)
                      && r.next.failedAttempts == 0
    ensures !r.yes ==> r.next == AuthKeySet(st, failing)
    ensures r.next.authState == AuthKeySet(st, failing).authState
    ensures r.next.lockoutUntil == st.lockoutUntil && r.next.biometricState == st.biometricState
  {
    var written := AuthKeySet(st, failing);
    if SetItem(SESSION_KEY) in failing then Check(false, written)
    else Check(true, written.(session := Session(Some(now + SESSION_TIMEOUT), now),
                              sessionExpiry := Some(now + SESSION_TIMEOUT),
                              failedAttempts := 0))
  }

  /**
   * `isLockedOut`: yes exactly when a lockout is set and `now` is before it.
   * A set lockout that has passed is cleared together with the counter, so no
   * answer of no leaves a lockout behind; nothing else changes.
   */
  function LockoutCheck(st: State, now: int): (r: Check)
    ensures r.yes <==> Truthy(st.lockoutUntil) && now < st.lockoutUntil.value
    ensures r.yes ==> r.next == st
    ensures !r.yes ==> !Truthy(r.next.lockoutUntil)
    ensures Truthy(st.lockoutUntil) && !r.yes ==> r.next.lockoutUntil == None && r.next.failedAttempts == 0
    ensures !Truthy(st.lockoutUntil) ==> r.next == st
    ensures r.next.(failedAttempts := st.failedAttempts, lockoutUntil := st.lockoutUntil) == st
    ensures Inv(st) ==> Inv(r.next)
    ensures Inv(st) && !r.yes ==> r.next.lockoutUntil == None && r.next.failedAttempts < MAX_ATTEMPTS
  {
    if !Truthy(st.lockoutUntil) then Check(false, st)
    else if now < st.lockoutUntil.value then Check(true, st)
    else Check(false, st.(lockoutUntil := None, failedAttempts := 0))
  }

  /**
   * `handleFailedAttempt`: the counter goes up by exactly one, and a lockout
   * of five minutes from `now` is set, with its alert, exactly when the new
   * count reaches three.
   */
  function FailedAttempt(st: State, now: nat): (r: Penalty)
    ensures r.next.failedAttempts == st.failedAttempts + 1
    ensures r.next.failedAttempts >= MAX_ATTEMPTS ==>
      r.next.lockoutUntil == Some(now + LOCKOUT_DURATION) && r.notice == TooManyAttempts(5)
    ensures r.next.failedAttempts < MAX_ATTEMPTS ==> r.next.lockoutUntil == st.lockoutUntil && r.notice == NoNotice
    ensures r.next.(failedAttempts := st.failedAttempts, lockoutUntil := st.lockoutUntil) == st
    ensures Inv(st) && st.lockoutUntil.None? ==> Inv(r.next)
  {
    var counted := st.(failedAttempts := st.failedAttempts + 1);
    if counted.failedAttempts >= MAX_ATTEMPTS then
      Penalty(counted.(lockoutUntil := Some(now + LOCKOUT_DURATION)), TooManyAttempts(LOCKOUT_DURATION / MINUTE))
    else Penalty(counted, NoNotice)
  }

  /**
   * `logout`: each of the three keys is removed unless its own removal
   * throws, and the in-memory fields are reset regardless. Afterwards no
   * session time remains, and when the session key was removed no session
   * check can succeed.
   */
  function LoggedOut(st: State, failing: set<StoreCall>): (r: State)
    ensures r.failedAttempts == 0 && r.lockoutUntil == None && r.sessionExpiry == None
    ensures Inv(r)
    ensures forall now :: RemainingMinutes(r.sessionExpiry, now) == 0
    ensures r.session == if RemoveItem(SESSION_KEY) in failing then st.session else Absent
    ensures r.authState == if RemoveItem(AUTH_KEY) in failing then st.authState else None
    ensures r.biometricState == if RemoveItem(BIOMETRIC_KEY) in failing then st.biometricState else None
    ensures RemoveItem(AUTH_KEY) !in failing ==> forall f :: !AuthenticatedBefore(r, f)
  {
    State(
      0, None, None,
      if RemoveItem(SESSION_KEY) in failing then st.session else Absent,
      if RemoveItem(AUTH_KEY) in failing then st.authState else None,
      if RemoveItem(BIOMETRIC_KEY) in failing then st.biometricState else None)
  }

  /** A prompt error that the service treats as the user backing out, with no penalty. */
  predicate IsUserAbort(error: string)
  {
    error == USER_CANCELLATION || error == USER_FALLBACK
  }

  /** The steps of `authenticate` after the lockout and session checks have both said no. */
  function PromptStep(s: State, sensor: SensorQuery, prompt: PromptResult, promptEnd: nat, failing: set<StoreCall>): Outcome
  {
    match sensor
    case SensorThrew => Outcome(false, UnexpectedError, s)
    case Sensor(available, _) =>
      if !available then Outcome(false, SetupRequired, s)
      else
        match prompt
        case TimedOut => Outcome(false, AuthTimedOut, s)
        case PromptThrew => Outcome(false, UnexpectedError, s)
        case Failed(error) =>
          if IsUserAbort(error) then Outcome(false, NoNotice, s)
          else
            var p := FailedAttempt(s, promptEnd);
            Outcome(false, p.notice, p.next)
        case Succeeded =>
          if SetItem(BIOMETRIC_KEY) in failing then Outcome(false, UnexpectedError, s)
          else
            var c := SessionCreation(s.(biometricState := Some(AUTHENTICATED)), promptEnd, failing);
            Outcome(c.yes, if c.yes then NoNotice else UnexpectedError, c.next)
  }

  /**
   * `authenticate`, started at `now`; `promptEnd` is the clock reading once
   * the prompt has settled. A lockout in force refuses at once, with the
   * minutes left; otherwise a valid session succeeds without a prompt;
   * otherwise the sensor and the prompt decide.
   */
  function Authentication(st: State, now: nat, sensor: SensorQuery, prompt: PromptResult, promptEnd: nat, failing: set<StoreCall>): (r: Outcome)
    ensures Inv(st) ==> Inv(r.next)
    ensures r.notice.AccessLocked? <==> Truthy(st.lockoutUntil) && now < st.lockoutUntil.value
    ensures r.notice.AccessLocked? ==> !r.ok && r.next == st
    ensures r.ok ==> r.notice == NoNotice
    ensures r.ok ==> Live(r.next.session, now) || r.next.session == Session(Some(promptEnd + SESSION_TIMEOUT), promptEnd)
  {
    var lock := LockoutCheck(st, now);
    if lock.yes then Outcome(false, AccessLocked(CeilMinutes(st.lockoutUntil.value - now)), lock.next)
    else
      var sc := SessionCheck(lock.next, now, failing);
      if sc.yes then Outcome(true, NoNotice, sc.next)
      else PromptStep(sc.next, sensor, prompt, promptEnd, failing)
  }

  /** The refused-at-once case: a lockout in force decides the outcome whatever the sensor, the prompt or the store would do. */
  lemma LockedOutAttempt(st: State, now: nat, sensor: SensorQuery, prompt: PromptResult, promptEnd: nat, failing: set<StoreCall>)
    requires Truthy(st.lockoutUntil) && now < st.lockoutUntil.value
    ensures Authentication(st, now, sensor, prompt, promptEnd, failing)
         == Outcome(false, AccessLocked(CeilMinutes(st.lockoutUntil.value - now)), st)
    ensures st.lockoutUntil.value <= now + LOCKOUT_DURATION ==> 1 <= CeilMinutes(st.lockoutUntil.value - now) <= 5
  {
  }

  /** The inputs for which a refused attempt carries no penalty: no sensor, a timeout, a thrown error, or the user backing out. */
  predicate Unpenalised(sensor: SensorQuery, prompt: PromptResult)
  {
    || sensor.SensorThrew?
    || !sensor.available
    || prompt.TimedOut?
    || prompt.PromptThrew?
    || (prompt.Failed? && IsUserAbort(prompt.error))
  }

  /**
   * Without a penalty the counter and the lockout are left as the lockout
   * check left them, and the attempt succeeds only through a valid session.
   */
  lemma UnpenalisedAttempt(st: State, now: nat, sensor: SensorQuery, prompt: PromptResult, promptEnd: nat, failing: set<StoreCall>)
    requires Unpenalised(sensor, prompt)
    ensures var lock := LockoutCheck(st, now);
            var o := Authentication(st, now, sensor, prompt, promptEnd, failing);
            && o.next.failedAttempts == lock.next.failedAttempts
            && o.next.lockoutUntil == lock.next.lockoutUntil
            && (o.ok <==> !lock.yes && SessionCheck(lock.next, now, failing).yes)
  {
  }

  /** Any other prompt failure, once the lockout and session checks said no, is exactly one failed attempt. */
  lemma PenalisedAttempt(st: State, now: nat, b: Option<BiometryType>, error: string, promptEnd: nat, failing: set<StoreCall>)
    requires !IsUserAbort(error)
    requires !LockoutCheck(st, now).yes
    requires !SessionCheck(LockoutCheck(st, now).next, now, failing).yes
    ensures var before := SessionCheck(LockoutCheck(st, now).next, now, failing).next;
            var p := FailedAttempt(before, promptEnd);
            && Authentication(st, now, Sensor(true, b), Failed(error), promptEnd, failing) == Outcome(false, p.notice, p.next)
            && p.next.failedAttempts == LockoutCheck(st, now).next.failedAttempts + 1
  {
  }

  /**
   * A successful prompt, with the three writes succeeding, marks the user
   * authenticated, stores a session of fifteen minutes from the prompt's end
   * and resets the counter.
   */
  lemma SuccessfulPrompt(st: State, now: nat, b: Option<BiometryType>, promptEnd: nat, failing: set<StoreCall>)
    requires !LockoutCheck(st, now).yes
    requires !SessionCheck(LockoutCheck(st, now).next, now, failing).yes
    requires SetItem(BIOMETRIC_KEY) !in failing && SetItem(SESSION_KEY) !in failing && SetItem(AUTH_KEY) !in failing
    ensures var o := Authentication(st, now, Sensor(true, b), Succeeded, promptEnd, failing);
            && o.ok && o.notice == NoNotice
            && o.next.biometricState == Some(AUTHENTICATED)
            && AuthenticatedBefore(o.next, {})
            && o.next.session == Session(Some(promptEnd + SESSION_TIMEOUT), promptEnd)
            && RemainingMinutes(o.next.sessionExpiry, promptEnd) == 15
            && o.next.failedAttempts == 0
            && !Truthy(o.next.lockoutUntil)
  {
  }

  /** A session the check accepts makes the attempt succeed at once, whatever the sensor and the prompt would do. */
  lemma ValidSessionShortCircuits(st: State, now: nat, sensor: SensorQuery, prompt: PromptResult, promptEnd: nat, failing: set<StoreCall>)
    requires !LockoutCheck(st, now).yes
    requires SessionCheck(LockoutCheck(st, now).next, now, failing).yes
    ensures Authentication(st, now, sensor, prompt, promptEnd, failing)
         == Outcome(true, NoNotice, SessionCheck(LockoutCheck(st, now).next, now, failing).next)
  {
  }

  /**
   * A successful prompt whose `biometric_state` or session write throws is
   * reported as an unexpected error: false, with the counter, the lockout and
   * the cached expiry as the lockout and session checks left them.
   */
  lemma FailedWriteAfterPrompt(st: State, now: nat, b: Option<BiometryType>, promptEnd: nat, failing: set<StoreCall>)
    requires !LockoutCheck(st, now).yes
    requires !SessionCheck(LockoutCheck(st, now).next, now, failing).yes
    requires SetItem(BIOMETRIC_KEY) in failing || SetItem(SESSION_KEY) in failing
    ensures var before := SessionCheck(LockoutCheck(st, now).next, now, failing).next;
            var o := Authentication(st, now, Sensor(true, b), Succeeded, promptEnd, failing);
            && !o.ok && o.notice == UnexpectedError
            && o.next.failedAttempts == before.failedAttempts
            && o.next.lockoutUntil == before.lockoutUntil
            && o.next.sessionExpiry == before.sessionExpiry
            && o.next.session == before.session
  {
  }

  /**
   * Once the lockout and session checks said no, a lost race against the
   * prompt timeout gives its own alert, distinct from the unexpected-error
   * alert of a throwing prompt or sensor check and from the set-up alert
   * of a missing sensor; none of them changes the state.
   */
  lemma TimeoutNotice(st: State, now: nat, b: Option<BiometryType>, promptEnd: nat, failing: set<StoreCall>)
    requires !LockoutCheck(st, now).yes
    requires !SessionCheck(LockoutCheck(st, now).next, now, failing).yes
    ensures var before := SessionCheck(LockoutCheck(st, now).next, now, failing).next;
            && Authentication(st, now, Sensor(true, b), TimedOut, promptEnd, failing) == Outcome(false, AuthTimedOut, before)
            && Authentication(st, now, Sensor(true, b), PromptThrew, promptEnd, failing) == Outcome(false, UnexpectedError, before)
            && (forall prompt :: Authentication(st, now, SensorThrew, prompt, promptEnd, failing) == Outcome(false, UnexpectedError, before))
            && (forall prompt :: Authentication(st, now, Sensor(false, b), prompt, promptEnd, failing) == Outcome(false, SetupRequired, before))
  {
  }

  /**
   * Three consecutive penalised failures, starting from a clear counter and
   * no live session, lock the service: a fourth attempt made before five
   * minutes have passed since the third prompt ended is refused at once,
   * with a wait of one to five minutes when it comes after that prompt.
   */
  lemma ThreeFailuresLockOut(
    st: State, sensor: SensorQuery, e1: string, e2: string, e3: string,
    t1: nat, p1: nat, t2: nat, p2: nat, t3: nat, p3: nat, t4: nat,
    f1: set<StoreCall>, f2: set<StoreCall>, f3: set<StoreCall>,
    sensor4: SensorQuery, prompt4: PromptResult, p4: nat, f4: set<StoreCall>)
    requires Inv(st) && st.failedAttempts == 0
    requires !Live(st.session, t1) && t1 <= t2 <= t3
    requires sensor.Sensor? && sensor.available
    requires !IsUserAbort(e1) && !IsUserAbort(e2) && !IsUserAbort(e3)
    requires t4 < p3 + LOCKOUT_DURATION
    ensures var o1 := Authentication(st, t1, sensor, Failed(e1), p1, f1);
            var o2 := Authentication(o1.next, t2, sensor, Failed(e2), p2, f2);
            var o3 := Authentication(o2.next, t3, sensor, Failed(e3), p3, f3);
            var o4 := Authentication(o3.next, t4, sensor4, prompt4, p4, f4);
            && !o1.ok && !o2.ok && !o3.ok
            && o3.notice == TooManyAttempts(5)
            && o3.next.failedAttempts == MAX_ATTEMPTS
            && o3.next.lockoutUntil == Some(p3 + LOCKOUT_DURATION)
            && o4 == Outcome(false, AccessLocked(CeilMinutes(p3 + LOCKOUT_DURATION - t4)), o3.next)
            && (p3 <= t4 ==> 1 <= o4.notice.waitMinutes <= 5)
  {
    var o1 := Authentication(st, t1, sensor, Failed(e1), p1, f1);
    assert o1.next.failedAttempts == 1 && o1.next.lockoutUntil == None && !Live(o1.next.session, t2);
    var o2 := Authentication(o1.next, t2, sensor, Failed(e2), p2, f2);
    assert o2.next.failedAttempts == 2 && o2.next.lockoutUntil == None && !Live(o2.next.session, t3);
    var o3 := Authentication(o2.next, t3, sensor, Failed(e3), p3, f3);
    assert o3.next.lockoutUntil == Some(p3 + LOCKOUT_DURATION);
    LockedOutAttempt(o3.next, t4, sensor4, prompt4, p4, f4);
  }

  /**
   * Once a lockout has passed, the next attempt is not refused for it: the
   * counter starts again from zero, so that attempt cannot lock the service.
   */
  lemma LockoutExpiryAllowsAttempt(st: State, now: nat, sensor: SensorQuery, prompt: PromptResult, promptEnd: nat, failing: set<StoreCall>)
    requires Inv(st) && st.lockoutUntil.Some? && st.lockoutUntil.value <= now
    ensures LockoutCheck(st, now) == Check(false, st.(lockoutUntil := None, failedAttempts := 0))
    ensures var o := Authentication(st, now, sensor, prompt, promptEnd, failing);
            && !o.notice.AccessLocked?
            && o.next.failedAttempts <= 1
            && o.next.lockoutUntil == None
  {
  }

  /**
   * The session slides: after a successful check at `now` that re-armed the
   * session, a later check succeeds exactly when it comes less than one
   * timeout after `now`.
   */
  lemma SessionSlides(st: State, now: nat, failing: set<StoreCall>, later: nat, failing2: set<StoreCall>)
    requires SessionCheck(st, now, failing).yes && SetItem(SESSION_KEY) !in failing
    requires GetItem(SESSION_KEY) !in failing2
    ensures SessionCheck(SessionCheck(st, now, failing).next, later, failing2).yes <==> later < now + SESSION_TIMEOUT
  {
  }

  /** After a logout whose session removal succeeded, no session check succeeds and no session time remains. */
  lemma LogoutEndsSession(st: State, failing: set<StoreCall>, now: nat, failing2: set<StoreCall>)
    requires RemoveItem(SESSION_KEY) !in failing
    ensures !SessionCheck(LoggedOut(st, failing), now, failing2).yes
    ensures RemainingMinutes(LoggedOut(st, failing).sessionExpiry, now) == 0
  {
  }

  /** One call of a public operation, with its inputs. */
  datatype Call =
    | CallAuthenticate(now: nat, sensor: SensorQuery, prompt: PromptResult, promptEnd: nat, failing: set<StoreCall>)
    | CallIsLockedOut(now: nat)
    | CallIsSessionValid(now: nat, failing: set<StoreCall>)
    | CallLogout(failing: set<StoreCall>)

  /** The state one call leaves. */
  function Step(st: State, c: Call): State
  {
    match c
    case CallAuthenticate(now, sensor, prompt, promptEnd, failing) => Authentication(st, now, sensor, prompt, promptEnd, failing).next
    case CallIsLockedOut(now) => LockoutCheck(st, now).next
    case CallIsSessionValid(now, failing) => SessionCheck(st, now, failing).next
    case CallLogout(failing) => LoggedOut(st, failing)
  }

  /** The state after a sequence of calls; every state reachable from one satisfying the invariant satisfies it too. */
  function Run(st: State, calls: seq<Call>): (r: State)
    ensures Inv(st) ==> Inv(r)
    decreases |calls|
  {
    if calls == [] then st else Run(Step(st, calls[0]), calls[1..])
  }

  /** Biometric display name for the UI, from the sensor check and the platform. */
  function BiometricDisplayName(q: SensorQuery, platform: Platform): (name: string)
    ensures name == FACE_ID <==> platform == IOS && q == Sensor(true, Some(FaceID))
    ensures name == TOUCH_ID <==> platform == IOS && q == Sensor(true, Some(TouchID))
    ensures name == BIOMETRIC_AUTHENTICATION <==> platform != IOS && q == Sensor(true, Some(Biometrics))
    ensures name !in {FACE_ID, TOUCH_ID, BIOMETRIC_AUTHENTICATION} ==> name == DEVICE_AUTHENTICATION
  {
    match q
    case SensorThrew => DEVICE_AUTHENTICATION
    case Sensor(available, biometryType) =>
      if !available then DEVICE_AUTHENTICATION
      else if platform == IOS then
        if biometryType == Some(FaceID) then FACE_ID
        else if biometryType == Some(TouchID) then TOUCH_ID
        else DEVICE_AUTHENTICATION
      else if biometryType == Some(Biometrics) then BIOMETRIC_AUTHENTICATION
      else DEVICE_AUTHENTICATION
  }

  /** `isBiometricSupported`: the sensor check answers that a sensor is available. */
  function IsBiometricSupported(q: SensorQuery): bool
  {
    q.Sensor? && q.available
  }

  /** `isBiometricEnrolled`: a sensor is available and reports a biometry type; this implies support. */
  function IsBiometricEnrolled(q: SensorQuery): (r: bool)
    ensures r ==> IsBiometricSupported(q)
    ensures r <==> IsBiometricSupported(q) && q.biometryType.Some?
  {
    q.Sensor? && q.available && q.biometryType.Some?
  }

  /**
   * The service object: the three in-memory fields and the three store
   * entries, updated in place. Each method is proved to leave the state, and
   * return the answer, that the corresponding function prescribes.
   */
  class AuthService {
    var failedAttempts: int
    var lockoutUntil: Option<int>
    var sessionExpiry: Option<int>
    var session: SessionRecord
    var authState: Option<string>
    var biometricState: Option<string>

    /** The object's fields as a `State` value. */
    function Snapshot(): State
      reads this
    {
      State(failedAttempts, lockoutUntil, sessionExpiry, session, authState, biometricState)
    }

    ghost predicate Valid()
      reads this
    {
      Inv(Snapshot())
    }

    /** Process start: the counters are clear, the store holds what an earlier run left. */
    constructor (session: SessionRecord, authState: Option<string>, biometricState: Option<string>)
      ensures Snapshot() == Initial(session, authState, biometricState)
      ensures Valid()
    {
      failedAttempts := 0;
      lockoutUntil := None;
      sessionExpiry := None;
      this.session := session;
      this.authState := authState;
      this.biometricState := biometricState;
    }

    method HasAuthenticatedBefore(failing: set<StoreCall>) returns (b: bool)
      ensures b == AuthenticatedBefore(Snapshot(), failing)
    {
      if GetItem(AUTH_KEY) in failing {
        return false;
      }
      b := authState == Some(AUTHENTICATED);
    }

    /** `getRemainingSessionTime`, read from the cached expiry, not from the store. */
    function GetRemainingSessionTime(now: nat): nat
      reads this
    {
      RemainingMinutes(sessionExpiry, now)
    }

    method SetAuthenticatedKey(failing: set<StoreCall>)
      modifies this`authState
      ensures Snapshot() == AuthKeySet(old(Snapshot()), failing)
    {
      if SetItem(AUTH_KEY) !in failing {
        authState := Some(AUTHENTICATED);
      }
    }

    method ExtendSession(now: nat, failing: set<StoreCall>)
      modifies this`session, this`sessionExpiry
      ensures Snapshot() == ExtendedSession(old(Snapshot()), now, failing)
    {
      var expiry := now + SESSION_TIMEOUT;
      if SetItem(SESSION_KEY) in failing {
        return;
      }
      session := Session(Some(expiry), now);
      sessionExpiry := Some(expiry);
    }

    method IsSessionValid(now: nat, failing: set<StoreCall>) returns (valid: bool)
      modifies this`session, this`sessionExpiry
      ensures Check(valid, Snapshot()) == SessionCheck(old(Snapshot()), now, failing)
    {
      if GetItem(SESSION_KEY) in failing {
        return false;
      }
      match session {
        case Absent =>
          return false;
        case ParsesToNull =>
          return false;
        case Corrupt =>
          if RemoveItem(SESSION_KEY) !in failing {
            session := Absent;
          }
          return false;
        case Session(expiry, _) =>
          if Truthy(expiry) && now < expiry.value {
            ExtendSession(now, failing);
            return true;
          }
          if RemoveItem(SESSION_KEY) !in failing {
            session := Absent;
          }
          return false;
      }
    }

    /** `createSession`; `ok` is false when the session write made it throw. */
    method CreateSession(now: nat, failing: set<StoreCall>) returns (ok: bool)
      modifies this`session, this`authState, this`sessionExpiry, this`failedAttempts
      ensures Check(ok, Snapshot()) == SessionCreation(old(Snapshot()), now, failing)
    {
      var expiry := now + SESSION_TIMEOUT;
      ok := SetItem(SESSION_KEY) !in failing;
      if ok {
        session := Session(Some(expiry), now);
      }
      SetAuthenticatedKey(failing);
      if !ok {
        return;
      }
      sessionExpiry := Some(expiry);
      failedAttempts := 0;
    }

    method IsLockedOut(now: nat) returns (locked: bool)
      modifies this`lockoutUntil, this`failedAttempts
      ensures Check(locked, Snapshot()) == LockoutCheck(old(Snapshot()), now)
    {
      if !Truthy(lockoutUntil) {
        return false;
      }
      if now < lockoutUntil.value {
        return true;
      }
      lockoutUntil := None;
      failedAttempts := 0;
      locked := false;
    }

    method HandleFailedAttempt(now: nat) returns (notice: Notice)
      modifies this`failedAttempts, this`lockoutUntil
      ensures Penalty(Snapshot(), notice) == FailedAttempt(old(Snapshot()), now)
    {
      failedAttempts := failedAttempts + 1;
      notice := NoNotice;
      if failedAttempts >= MAX_ATTEMPTS {
        lockoutUntil := Some(now + LOCKOUT_DURATION);
        notice := TooManyAttempts(LOCKOUT_DURATION / MINUTE);
      }
    }

    /** `logout`: the three removals run independently; the in-memory reset happens whatever they do. */
    method Logout(failing: set<StoreCall>)
      modifies this
      ensures Snapshot() == LoggedOut(old(Snapshot()), failing)
      ensures Valid()
    {
      if RemoveItem(SESSION_KEY) !in failing {
        session := Absent;
      }
      if RemoveItem(AUTH_KEY) !in failing {
        authState := None;
      }
      if RemoveItem(BIOMETRIC_KEY) !in failing {
        biometricState := None;
      }
      sessionExpiry := None;
      failedAttempts := 0;
      lockoutUntil := None;
    }

    method Authenticate(now: nat, sensor: SensorQuery, prompt: PromptResult, promptEnd: nat, failing: set<StoreCall>)
      returns (ok: bool, notice: Notice)
      modifies this
      ensures Outcome(ok, notice, Snapshot()) == Authentication(old(Snapshot()), now, sensor, prompt, promptEnd, failing)
      ensures old(Valid()) ==> Valid()
    {
      var locked := IsLockedOut(now);
      if locked {
        return false, AccessLocked(CeilMinutes(lockoutUntil.value - now));
      }
      var valid := IsSessionValid(now, failing);
      if valid {
        return true, NoNotice;
      }
      match sensor {
        case SensorThrew =>
          return false, UnexpectedError;
        case Sensor(available, _) =>
          if !available {
            return false, SetupRequired;
          }
          match prompt {
            case TimedOut =>
              return false, AuthTimedOut;
            case PromptThrew =>
              return false, UnexpectedError;
            case Failed(error) =>
              if IsUserAbort(error) {
                return false, NoNotice;
              }
              notice := HandleFailedAttempt(promptEnd);
              ok := false;
            case Succeeded =>
              if SetItem(BIOMETRIC_KEY) in failing {
                return false, UnexpectedError;
              }
              biometricState := Some(AUTHENTICATED);
              var created := CreateSession(promptEnd, failing);
              ok := created;
              notice := if created then NoNotice else UnexpectedError;
          }
      }
    }
  }
}
