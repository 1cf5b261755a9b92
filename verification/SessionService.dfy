/** The `Sessions` class of browser-service/src/sessions/sessions.ts over a shared `ProfileLocks`,
    stretch by stretch, updated in place. Sessions are named by their `create` call. */
module SessionService {
  import opened Wrappers
  import P = ProfileLocks
  import opened BrowserSessions

  class Sessions {
    const maxSessions: nat
    const locks: P.ProfileLocks
    var table: set<nat>
    var starting: int
    var attempts: seq<Attempt>

    ghost function Value(): State
      reads this, locks
    {
      State(maxSessions, locks.Value(), table, starting, attempts)
    }

    constructor (maxSessions: nat, locks: P.ProfileLocks)
      requires locks.Value() == P.UNLOCKED
      ensures this.locks == locks && Value() == Init(maxSessions) && Inv(Value())
    {
      this.maxSessions, this.locks := maxSessions, locks;
      table, starting, attempts := {}, 0, [];
    }

    method TakeHold(profile: Option<string>) returns (held: bool)
      requires P.Exclusive(locks.Value())
      modifies locks`sessions
      ensures held <==> !Blocked(old(locks.Value()), profile)
      ensures locks.Value() == if held then HoldFor(old(locks.Value()), profile) else old(locks.Value())
    {
      held := true;
      if profile.Some? {
        held := locks.HoldForSession(profile.value);
      }
    }

    method Begin(profile: Option<string>) returns (answer: Result<nat, string>)
      requires P.Exclusive(locks.Value())
      modifies this, locks
      ensures Value() == ApplyCreate(old(Value()), profile)
      ensures answer.Ok? ==> answer.value == |old(attempts)| && answer.value < |attempts| && attempts[answer.value].phase == Opening
      ensures answer.Err? ==> locks.Value() == old(locks.Value())
    {
      if |table| + starting >= maxSessions {
        return Err("saturated");
      }
      starting := starting + 1;
      var k := |attempts|;
      var held := TakeHold(profile);
      attempts := attempts + [Attempt(profile, true, if held then Opening else Refused, NotLaunched, NotAsked, 0, false)];
      answer := if held then Ok(k) else Err("profile_in_use");
    }

    /** `create` and `#open` up to the first `await`. */
    method Create(profile: Option<string>) returns (answer: Result<nat, string>)
      requires Inv(Value())
      modifies this, locks
      ensures Value() == Apply(old(Value()), Event.Create(profile)) && Inv(Value())
      ensures answer.Ok? ==> answer.value == |old(attempts)| && answer.value < |attempts| && attempts[answer.value].phase == Opening
      ensures answer.Err? ==> locks.Value() == old(locks.Value())
    {
      CreateKeeps(Value(), profile);
      answer := Begin(profile);
    }

    /** `#register`. */
    method Register(k: nat)
      requires Inv(Value()) && Enabled(Value(), Event.Register(k))
      modifies this
      ensures Value() == Apply(old(Value()), Event.Register(k)) && Inv(Value())
    {
      StepKeeps(Value(), Event.Register(k));
      attempts := attempts[k := attempts[k].(phase := Listed)];
      table := table + {k};
    }

    /** The `catch` of `#open`, up to its wait for Chrome. */
    method FailOpen(k: nat)
      requires Inv(Value()) && Enabled(Value(), OpenFails(k))
      modifies this`attempts
      ensures Value() == Apply(old(Value()), OpenFails(k)) && Inv(Value())
    {
      StepKeeps(Value(), OpenFails(k));
      attempts := attempts[k := attempts[k].(phase := CleaningUp, chrome := if attempts[k].chrome == Running then CloseCalled else NotLaunched)];
    }

    /** Chrome is closed, or there was none: the rest of that `catch`, and the rest of `#release`. */
    method GiveBack(k: nat)
      requires Inv(Value()) && k < |attempts| && attempts[k].phase in {CleaningUp, Releasing}
      modifies this`attempts, locks
      ensures Value() == Apply(old(Value()), if old(attempts[k].phase) == CleaningUp then CleanupSettles(k) else CloseSettles(k))
      ensures Inv(Value())
    {
      FinishKeeps(Value(), k);
      var a := attempts[k];
      if a.profile.Some? {
        locks.ReleaseSession(a.profile.value);
      }
      attempts := attempts[k := a.(phase := Over,
                                   chrome := if a.chrome == NotLaunched then NotLaunched else CloseSettled,
                                   shutdown := if a.shutdown == Awaiting then Resolved else a.shutdown,
                                   releases := a.releases + if a.profile.Some? then 1 else 0)];
    }

    /** The `finally` of `create`. */
    method Return(k: nat)
      requires Inv(Value()) && Enabled(Value(), CreateReturns(k))
      modifies this
      ensures Value() == Apply(old(Value()), CreateReturns(k)) && Inv(Value())
    {
      StepKeeps(Value(), CreateReturns(k));
      attempts := attempts[k := attempts[k].(starting := false)];
      starting := starting - 1;
    }

    /** `#release` up to its wait for Chrome. */
    method Release(k: nat)
      requires k < |attempts|
      modifies this`table, this`attempts
      ensures Value() == BrowserSessions.Release(old(Value()), k)
    {
      if k !in table {
        return;
      }
      table := table - {k};
      attempts := attempts[k := attempts[k].(phase := Releasing, chrome := CloseCalled)];
    }

    /** `close`: an unknown session is an error, a second close joins the first. */
    method Close(k: nat) returns (found: bool)
      requires Inv(Value())
      modifies this
      ensures Value() == Apply(old(Value()), Ask(k)) && Inv(Value())
      ensures found <==> k in old(table)
    {
      AskKeeps(Value(), k);
      found := k in table;
      if found && attempts[k].shutdown == NotAsked {
        if attempts[k].profile.Some? {
          attempts := attempts[k := attempts[k].(shutdown := Saving)];
        } else {
          Release(k);
          attempts := attempts[k := attempts[k].(shutdown := Awaiting)];
        }
      }
    }

    /** `#shutdown` after its save. */
    method FinishSave(k: nat)
      requires Inv(Value()) && Enabled(Value(), SaveSettles(k))
      modifies this
      ensures Value() == Apply(old(Value()), SaveSettles(k)) && Inv(Value())
    {
      StepKeeps(Value(), SaveSettles(k));
      var mine := k in table;
      Release(k);
      attempts := attempts[k := attempts[k].(shutdown := if mine then Awaiting else Resolved)];
    }

    /** The `close` listener of a registered context. */
    method OnBrowserClose(k: nat)
      requires Inv(Value()) && Enabled(Value(), BrowserDies(k))
      modifies this
      ensures Value() == Apply(old(Value()), BrowserDies(k)) && Inv(Value())
    {
      StepKeeps(Value(), BrowserDies(k));
      attempts := attempts[k := attempts[k].(diedAlone := true)];
      Release(k);
    }
  }
}
