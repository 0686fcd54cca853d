/**
 * The `LoginForm` component: which name a submit hands to `onLogin`, and the
 * `isLoading` flag around that call.
 */
module LoginFormComponent {
  import opened Common
  import opened Text

  /** One call of the `onLogin` prop, with the value `isLoading` had while it ran. */
  datatype LoginCall = LoginCall(username: string, isAnonymous: bool, loadingDuringCall: bool)

  /** The prefix of every anonymous name. */
  const AnonymousPrefix := "Anonymous_"

  /** `Anonymous_${Date.now()}`. */
  function AnonymousName(now: nat): (r: string)
    ensures |r| > |AnonymousPrefix| && r[..|AnonymousPrefix|] == AnonymousPrefix
  {
    AnonymousPrefix + Decimal(now)
  }

  /**
   * The name a submit passes to `onLogin`, or `None` when the submit stops at
   * the guard: a non-anonymous submit with a blank username.
   */
  function ChosenName(username: string, isAnonymous: bool, now: nat): (r: Option<string>)
    ensures r.Some? ==> r.value != []
    ensures r.Some? && !isAnonymous ==> |r.value| <= |username|
    ensures r.Some? && isAnonymous ==> |r.value| > |AnonymousPrefix| && r.value[..|AnonymousPrefix|] == AnonymousPrefix
  {
    if !isAnonymous && Trim(username) == [] then None
    else if isAnonymous then Some(AnonymousName(now))
    else Some(Trim(username))
  }

  /**
   * Only a blank non-anonymous submit is refused; an anonymous one ignores the
   * username field, even when it is blank; a non-anonymous one passes the
   * trimmed username.
   */
  lemma ChosenNameCases(username: string, isAnonymous: bool, now: nat)
    ensures ChosenName(username, isAnonymous, now).None? <==> !isAnonymous && AllSpace(username)
    ensures isAnonymous ==> ChosenName(username, isAnonymous, now) == Some(AnonymousName(now))
    ensures !isAnonymous && !AllSpace(username) ==> ChosenName(username, isAnonymous, now) == Some(Trim(username))
  {
    TrimEmptyIffBlank(username);
  }

  /** Whatever the path, the chosen name is non-empty and has no white space at either end. */
  lemma ChosenNameIsTrimmed(username: string, isAnonymous: bool, now: nat)
    requires ChosenName(username, isAnonymous, now).Some?
    ensures var name := ChosenName(username, isAnonymous, now).value;
      name != [] && Trim(name) == name
  {
    var name := ChosenName(username, isAnonymous, now).value;
    if isAnonymous {
      var d := Decimal(now);
      assert name[0] == 'A';
      assert name[|name| - 1] == d[|d| - 1];
      TrimFixed(name);
    } else {
      TrimIdempotent(username);
    }
  }

  /** Two anonymous logins get the same name exactly when they happen in the same millisecond. */
  lemma AnonymousNamesCollideOnlyAtSameTime(t1: nat, t2: nat)
    ensures AnonymousName(t1) == AnonymousName(t2) <==> t1 == t2
  {
    if AnonymousName(t1) == AnonymousName(t2) {
      assert Decimal(t1) == AnonymousName(t1)[|AnonymousPrefix|..];
      assert Decimal(t2) == AnonymousName(t2)[|AnonymousPrefix|..];
      DecimalInjective(t1, t2);
    }
  }

  class LoginForm {
    var username: string
    var isLoading: bool
    /** The calls made to the `onLogin` prop. */
    var calls: seq<LoginCall>

    constructor ()
      ensures username == [] && !isLoading && calls == []
    {
      username, isLoading, calls := [], false, [];
    }

    /** The username input's `onChange`. */
    method SetUsername(text: string)
      modifies this
      ensures username == text && isLoading == old(isLoading) && calls == old(calls)
    {
      username := text;
    }

    /** The `onLogin` prop, as seen from the form: it records the call. */
    method OnLogin(name: string, isAnonymous: bool)
      modifies this
      ensures calls == old(calls) + [LoginCall(name, isAnonymous, isLoading)]
      ensures username == old(username) && isLoading == old(isLoading)
    {
      calls := calls + [LoginCall(name, isAnonymous, isLoading)];
    }

    /**
     * `handleSubmit`, with `Date.now()` as `now`. A refused submit changes
     * nothing. Otherwise `onLogin` is called once, with the chosen name and
     * the `isAnonymous` flag unchanged, while `isLoading` is true; `isLoading`
     * is false afterwards unless `onLogin` threw (`loginThrows`), in which
     * case the line that clears it is never reached.
     */
    method HandleSubmit(isAnonymous: bool, now: nat, loginThrows: bool)
      modifies this
      ensures ChosenName(old(username), isAnonymous, now).None? ==>
        isLoading == old(isLoading) && calls == old(calls)
      ensures ChosenName(old(username), isAnonymous, now).Some? ==>
        && calls == old(calls) + [LoginCall(ChosenName(old(username), isAnonymous, now).value, isAnonymous, true)]
        && isLoading == loginThrows
      ensures username == old(username)
    {
      if !isAnonymous && Trim(username) == [] {
        return;
      }
      isLoading := true;
      OnLogin(if isAnonymous then AnonymousName(now) else Trim(username), isAnonymous);
      if loginThrows {
        return;
      }
      isLoading := false;
    }

    /** `handleAnonymousLogin`: a submit with `isAnonymous` set. */
    method HandleAnonymousLogin(now: nat, loginThrows: bool)
      modifies this
      ensures calls == old(calls) + [LoginCall(AnonymousName(now), true, true)]
      ensures isLoading == loginThrows && username == old(username)
    {
      HandleSubmit(true, now, loginThrows);
    }
  }
}
