/**
 * The session guard (visa.py `is_logged_in`, `ensure_logged_in`). The probe
 * looks for the post-login landmark link; the login form run
 * (`start_process`) is an oracle that completes or raises.
 */
module Session {
  import opened Results
  import opened Effects

  /** Result of `find_element` on the landmark: found, or raised. */
  datatype Probe = Landmark | ProbeRaised(error: string)

  /** Any exception from the probe reads as "logged out"; it never propagates. */
  function IsLoggedIn(p: Probe): (r: bool)
    ensures r <==> p.Landmark?
    ensures p.ProbeRaised? ==> !r
  {
    match p
    case Landmark => true
    case ProbeRaised(_) => false
  }

  /**
   * Logs in again exactly when the probe says the session is gone; a failed
   * login raises out of the guard.
   */
  function EnsureLoggedIn(p: Probe, login: Outcome): (r: Traced<()>)
    ensures Login in r.effects <==> !IsLoggedIn(p)
    ensures r.effects == [] || r.effects == [Login]
    ensures IsLoggedIn(p) ==> r == Traced([], Ok(()))
    ensures r.result.Err? <==> !IsLoggedIn(p) && login.Fail?
    ensures r.result.Err? ==> r.result.error == login.error
  {
    if IsLoggedIn(p) then Traced([], Ok(()))
    else
      match login
      case Pass => Traced([Login], Ok(()))
      case Fail(e) => Traced([Login], Err(e))
  }

  /**
   * What a probe taken right after the guard finds. The landmark was already
   * there, or the login's last wait (visa.py:162-166) returned only once it
   * had appeared. After a failed login nothing has changed.
   */
  function ProbeAfter(p: Probe, login: Outcome): (q: Probe)
    ensures q.Landmark? <==> IsLoggedIn(p) || login.Pass?
  {
    if IsLoggedIn(p) || login.Pass? then Landmark else p
  }

  /**
   * The guard is safe to call before every poll: a second call made right
   * after the first is a no-op exactly when the first returned normally.
   */
  lemma EnsureLoggedInIdempotent(p: Probe, login: Outcome, login': Outcome)
    ensures var again := EnsureLoggedIn(ProbeAfter(p, login), login');
      again == Traced([], Ok(())) <==> EnsureLoggedIn(p, login).result.Ok?
    ensures EnsureLoggedIn(p, login).result.Ok? ==> Login !in EnsureLoggedIn(ProbeAfter(p, login), login').effects
  {
  }
}
