/** The login deep link and the account state of the WowUp account service:
    the auth token (in storage and in the token subject), the account looked
    up for it, and the preference map holding the account feature flags.
    Storage, IPC, the account API and the push calls are external; their
    results are parameters. */
module Account {
  import opened Wrappers
  import Strings

  /** `APP_PROTOCOL_NAME`: the scheme of `wowup://login/desktop/<token>`. */
  const AppProtocolName: string := "wowup"

  /** The shortest token the login link accepts. */
  const MinTokenLength: nat := 10

  /** What the login link handler makes of one protocol message. */
  datatype LoginLink =
    | OtherProtocol     // the scheme is not the application's
    | NotDesktopLogin   // segments 2 and 3 are not `login` and `desktop`
    | InvalidToken      // segment 4 is missing or shorter than 10 characters
    | Token(token: string)

  /** The parse in `handleLoginProtocol`. `protocolName` is what the
      (external) `getProtocol` returned for `protocol`. */
  function ParseLoginProtocol(protocol: string, protocolName: string): (r: LoginLink)
    ensures protocolName != AppProtocolName <==> r == OtherProtocol
    ensures r.Token? ==> '/' !in r.token && |r.token| >= MinTokenLength
    ensures var parts := Strings.Split(protocol, '/');
      r.Token? <==> protocolName == AppProtocolName && |parts| >= 5 && parts[2] == "login" &&
                    parts[3] == "desktop" && |parts[4]| >= MinTokenLength
    ensures var parts := Strings.Split(protocol, '/');
      r.Token? ==> r.token == parts[4]
    ensures var parts := Strings.Split(protocol, '/');
      r == NotDesktopLogin <==> protocolName == AppProtocolName &&
                                (|parts| < 4 || parts[2] != "login" || parts[3] != "desktop")
  {
    if protocolName != AppProtocolName then OtherProtocol
    else
      var parts := Strings.Split(protocol, '/');
      if |parts| < 4 || parts[2] != "login" || parts[3] != "desktop" then NotDesktopLogin
      else if |parts| < 5 || |parts[4]| < MinTokenLength then InvalidToken
      else Token(parts[4])
  }

  /** The link the web login redirects to. */
  function LoginUrl(token: string): string
  {
    "wowup://login/desktop/" + token
  }

  /** Helper for `SplitLoginUrl`: the link literal as its four leading
      segments, each followed by a `/`, and then `rest`. */
  lemma LoginUrlSegments(rest: string)
    ensures LoginUrl(rest) == "wowup:" + "/" + ("" + "/" + ("login" + "/" + ("desktop" + "/" + rest)))
  {
    var prefix := "wowup:" + "/" + "" + "/" + "login" + "/" + "desktop" + "/";
    assert prefix == "wowup://login/desktop/";
    assert "wowup:" + "/" + ("" + "/" + ("login" + "/" + ("desktop" + "/" + rest))) == prefix + rest;
  }

  /** Splitting the login link yields the scheme, an empty segment, `login`,
      `desktop` and then the parts of what follows. */
  lemma {:induction false} SplitLoginUrl(rest: string)
    ensures Strings.Split(LoginUrl(rest), '/') == ["wowup:", "", "login", "desktop"] + Strings.Split(rest, '/')
  {
    var desktop := "desktop" + "/" + rest;
    var login := "login" + "/" + desktop;
    var empty := "" + "/" + login;
    LoginUrlSegments(rest);
    Strings.SplitAfterHead("desktop", '/', rest);
    Strings.SplitAfterHead("login", '/', desktop);
    Strings.SplitAfterHead("", '/', login);
    Strings.SplitAfterHead("wowup:", '/', empty);
    assert ["wowup:"] + (["" ] + (["login"] + (["desktop"] + Strings.Split(rest, '/'))))
      == ["wowup:", "", "login", "desktop"] + Strings.Split(rest, '/');
  }

  /** A login link carrying a long enough token yields exactly that token;
      segments after it are ignored. */
  lemma LoginUrlYieldsToken(token: string, tail: seq<string>)
    requires '/' !in token && |token| >= MinTokenLength
    requires forall i :: 0 <= i < |tail| ==> '/' !in tail[i]
    ensures ParseLoginProtocol(LoginUrl(Strings.Join([token] + tail, '/')), AppProtocolName) == Token(token)
  {
    SplitJoinedLoginUrl(token, tail);
    ParseDesktopLogin(LoginUrl(Strings.Join([token] + tail, '/')), ["wowup:", ""], token, tail);
  }

  lemma SplitJoinedLoginUrl(token: string, tail: seq<string>)
    requires '/' !in token
    requires forall i :: 0 <= i < |tail| ==> '/' !in tail[i]
    ensures Strings.Split(LoginUrl(Strings.Join([token] + tail, '/')), '/')
      == ["wowup:", ""] + ["login", "desktop"] + ([token] + tail)
  {
    var segments := [token] + tail;
    forall i | 0 <= i < |segments| ensures '/' !in segments[i] {
      if i > 0 { assert segments[i] == tail[i - 1]; }
    }
    var rest := Strings.Join(segments, '/');
    Strings.SplitJoin(segments, '/');
    SplitLoginUrl(rest);
    calc {
      Strings.Split(LoginUrl(rest), '/');
      ["wowup:", "", "login", "desktop"] + Strings.Split(rest, '/');
      ["wowup:", "", "login", "desktop"] + segments;
      { assert ["wowup:", "", "login", "desktop"] == ["wowup:", ""] + ["login", "desktop"]; }
      ["wowup:", ""] + ["login", "desktop"] + segments;
    }
  }

  /** A protocol message whose segments 2 to 4 are `login`, `desktop` and a
      long enough token is accepted with that token. */
  lemma ParseDesktopLogin(protocol: string, head: seq<string>, token: string, tail: seq<string>)
    requires |head| == 2 && |token| >= MinTokenLength
    requires Strings.Split(protocol, '/') == head + ["login", "desktop"] + ([token] + tail)
    ensures ParseLoginProtocol(protocol, AppProtocolName) == Token(token)
  {
    var parts := head + ["login", "desktop"] + ([token] + tail);
    assert parts[2] == "login" && parts[3] == "desktop" && parts[4] == token;
  }

  /** A login link whose token is too short is rejected. */
  lemma ShortTokenRejected(token: string)
    requires '/' !in token && |token| < MinTokenLength
    ensures ParseLoginProtocol(LoginUrl(token), AppProtocolName) == InvalidToken
  {
    Strings.SplitNoSeparator(token, '/');
    SplitLoginUrl(token);
  }

  /** The filter on the token subject: only a non-empty token strictly longer
      than 10 characters triggers the account lookup. */
  predicate TriggersLookup(token: string)
  {
    token != "" && |token| > 10
  }

  /** A token of exactly ten characters is accepted by the login link but
      never looked up. */
  lemma TenCharacterTokenNotLookedUp(token: string)
    requires '/' !in token && |token| == 10
    ensures ParseLoginProtocol(LoginUrl(token), AppProtocolName) == Token(token)
    ensures !TriggersLookup(token)
  {
    LoginUrlYieldsToken(token, []);
    assert Strings.Join([token], '/') == token;
  }

  /** The error a failed call raises. */
  datatype Failure = HttpError(status: int) | OtherError

  /** `[403, 401].includes(e.status)` for an HTTP error response. */
  predicate IsUnauthorized(e: Failure)
  {
    e.HttpError? && (e.status == 403 || e.status == 401)
  }

  /** The parts of the account response the service reads. */
  datatype WowUpAccount = WowUpAccount(pushAppId: string, addonUpdatesChannel: Option<string>)

  /** How a boolean preference is stored: the preference store's `set` is
      not part of this model, and it is taken to store the `toString()` of
      the value, which is what the `accountPushEnabled` getter compares with. */
  function BoolText(b: bool): string
  {
    if b then "true" else "false"
  }

  /** The preference map after `resetAccountPreferences`: every feature key
      reads "false", every other key is as before. */
  function ResetPreferences(prefs: map<string, string>, keys: seq<string>): (r: map<string, string>)
    ensures r.Keys == prefs.Keys + set k | k in keys
    ensures forall k :: k in keys ==> r[k] == "false"
    ensures forall k :: k in prefs && k !in keys ==> r[k] == prefs[k]
  {
    map k | k in prefs.Keys + (set k | k in keys) :: if k in keys then "false" else prefs[k]
  }

  /** Resetting one more key updates that key alone. */
  lemma ResetPreferencesStep(prefs: map<string, string>, keys: seq<string>, key: string)
    ensures ResetPreferences(prefs, keys + [key]) == ResetPreferences(prefs, keys)[key := "false"]
  {
    var a := ResetPreferences(prefs, keys + [key]);
    var b := ResetPreferences(prefs, keys)[key := "false"];
    assert a.Keys == b.Keys;
    forall k | k in a.Keys ensures a[k] == b[k] {
      if k == key {
      } else if k in keys {
        assert k in keys + [key];
      } else {
        assert k !in keys + [key];
      }
    }
  }

  class AccountService {
    /** `ACCT_FEATURE_KEYS` and `ACCT_PUSH_ENABLED_KEY`. */
    const featureKeys: seq<string>
    const pushEnabledKey: string

    /** The token in local storage, and the current value of the token
        subject. */
    var storedToken: Option<string>
    var authToken: string
    /** Whether the latest value of the token subject passed its filter,
        so that an account lookup was started for it. */
    var lookupRequested: bool
    /** The current value of the account subject. */
    var account: Option<WowUpAccount>
    /** The preference store. */
    var preferences: map<string, string>

    /** Construction subscribes the length filter to the token subject and
        then loads a stored token when there is a non-empty one, so a stored
        token longer than 10 characters starts an account lookup at once. */
    constructor (featureKeys: seq<string>, pushEnabledKey: string, storedToken: Option<string>,
                 preferences: map<string, string>)
      ensures this.featureKeys == featureKeys && this.pushEnabledKey == pushEnabledKey
      ensures this.storedToken == storedToken && this.preferences == preferences
      ensures authToken == if storedToken.Some? && storedToken.value != "" then storedToken.value else ""
      ensures account == None
      ensures lookupRequested == TriggersLookup(authToken)
      ensures lookupRequested <==> storedToken.Some? && |storedToken.value| > 10
    {
      this.featureKeys := featureKeys;
      this.pushEnabledKey := pushEnabledKey;
      this.storedToken := storedToken;
      this.preferences := preferences;
      this.account := None;
      if storedToken.Some? && storedToken.value != "" {
        this.authToken := storedToken.value;
        this.lookupRequested := TriggersLookup(storedToken.value);
      } else {
        this.authToken := "";
        this.lookupRequested := false;
      }
    }

    /** The `accountPushEnabled` getter. */
    function AccountPushEnabled(): (enabled: bool)
      reads this
      ensures enabled <==> pushEnabledKey in preferences && preferences[pushEnabledKey] == "true"
    {
      pushEnabledKey in preferences && preferences[pushEnabledKey] == BoolText(true)
    }

    /** `handleLoginProtocol`: an accepted token is written to storage and to
        the token subject, whose filter then decides whether the account
        lookup starts; anything else changes nothing. */
    method HandleLoginProtocol(protocol: string, protocolName: string)
      modifies this
      ensures var link := ParseLoginProtocol(protocol, protocolName);
        if link.Token? then
          storedToken == Some(link.token) && authToken == link.token &&
          lookupRequested == TriggersLookup(link.token)
        else
          storedToken == old(storedToken) && authToken == old(authToken) &&
          lookupRequested == old(lookupRequested)
      ensures account == old(account) && preferences == old(preferences)
    {
      var link := ParseLoginProtocol(protocol, protocolName);
      if link.Token? {
        storedToken := Some(link.token);
        authToken := link.token;
        lookupRequested := TriggersLookup(authToken);
      }
    }

    /** `clearAuthToken`. */
    method ClearAuthToken()
      modifies this
      ensures storedToken == None && authToken == "" && account == None
      ensures !lookupRequested
      ensures preferences == old(preferences)
    {
      storedToken := None;
      authToken := "";
      lookupRequested := TriggersLookup(authToken);
      account := None;
    }

    /** `resetAccountPreferences`: each feature key in turn is set to false. */
    method ResetAccountPreferences()
      modifies this
      ensures preferences == ResetPreferences(old(preferences), featureKeys)
      ensures storedToken == old(storedToken) && authToken == old(authToken) && account == old(account)
      ensures lookupRequested == old(lookupRequested)
    {
      var i := 0;
      while i < |featureKeys|
        invariant 0 <= i <= |featureKeys|
        invariant preferences == ResetPreferences(old(preferences), featureKeys[..i])
        invariant storedToken == old(storedToken) && authToken == old(authToken) && account == old(account)
        invariant lookupRequested == old(lookupRequested)
      {
        assert featureKeys[..i + 1] == featureKeys[..i] + [featureKeys[i]];
        ResetPreferencesStep(old(preferences), featureKeys[..i], featureKeys[i]);
        preferences := preferences[featureKeys[i] := BoolText(false)];
        i := i + 1;
      }
      assert featureKeys[..i] == featureKeys;
    }

    /** `logout`: no token, no account, every feature flag false. */
    method Logout()
      modifies this
      ensures storedToken == None && authToken == "" && account == None && !lookupRequested
      ensures preferences == ResetPreferences(old(preferences), featureKeys)
      ensures pushEnabledKey in featureKeys ==> !AccountPushEnabled()
    {
      ClearAuthToken();
      ResetAccountPreferences();
    }

    /** `toggleAccountPush`. The awaited push steps (IPC init, register or
        unregister, subscribe) are external and end in `steps`; reading the
        push app id of a missing account throws. The preference is written
        only when everything succeeded; a failure is rethrown. */
    method ToggleAccountPush(enabled: bool, steps: Outcome<Failure>) returns (r: Outcome<Failure>)
      modifies this
      ensures r == if account.None? then Fail(OtherError) else steps
      ensures preferences == if r.Pass? then old(preferences)[pushEnabledKey := BoolText(enabled)]
                             else old(preferences)
      ensures storedToken == old(storedToken) && authToken == old(authToken) && account == old(account)
      ensures lookupRequested == old(lookupRequested)
    {
      if account.None? {
        r := Fail(OtherError);
      } else {
        r := steps;
      }
      if r.Pass? {
        preferences := preferences[pushEnabledKey := BoolText(enabled)];
      }
    }

    /** `onAuthTokenChanged`: store the looked-up account and, when push is
        enabled, re-register for push. Any failure is caught; only a 401 or
        403 logs out. */
    method OnAuthTokenChanged(lookup: Result<WowUpAccount, Failure>, pushSteps: Outcome<Failure>)
      modifies this
      ensures lookup.Failure? && !IsUnauthorized(lookup.error) ==>
        storedToken == old(storedToken) && authToken == old(authToken) && lookupRequested == old(lookupRequested) &&
        account == old(account) && preferences == old(preferences)
      ensures lookup.Failure? && IsUnauthorized(lookup.error) ==>
        storedToken == None && authToken == "" && account == None && !lookupRequested &&
        preferences == ResetPreferences(old(preferences), featureKeys)
      ensures lookup.Success? && !old(AccountPushEnabled()) ==>
        storedToken == old(storedToken) && authToken == old(authToken) && lookupRequested == old(lookupRequested) &&
        account == Some(lookup.value) && preferences == old(preferences)
      ensures lookup.Success? && old(AccountPushEnabled()) && pushSteps.Pass? ==>
        storedToken == old(storedToken) && authToken == old(authToken) && lookupRequested == old(lookupRequested) &&
        account == Some(lookup.value) && preferences == old(preferences)
      ensures lookup.Success? && old(AccountPushEnabled()) && pushSteps.Fail? ==>
        if IsUnauthorized(pushSteps.error) then
          storedToken == None && authToken == "" && account == None && !lookupRequested &&
          preferences == ResetPreferences(old(preferences), featureKeys)
        else
          storedToken == old(storedToken) && authToken == old(authToken) && lookupRequested == old(lookupRequested) &&
          account == Some(lookup.value) && preferences == old(preferences)
    {
      match lookup {
        case Success(acct) =>
          account := Some(acct);
          if AccountPushEnabled() {
            var r := ToggleAccountPush(true, pushSteps);
            if r.Fail? && IsUnauthorized(r.error) {
              Logout();
            }
          }
        case Failure(e) =>
          if IsUnauthorized(e) {
            Logout();
          }
      }
    }
  }
}
