/**
 * The `ConnectionManager` of src/aws_adfs_gui/web_app.py and the two
 * handlers beside it that read its state: the `execute_command` branch of the
 * WebSocket endpoint and `get_auth_status`. Sockets are ids, sends append to
 * `outbox`, the authenticator is the shared `ADFSAuthenticator`, and the list
 * of configured profile names is a parameter.
 */
module GuiWebApp {
  import opened Wrappers
  import opened Models
  import opened AdfsAuth
  import opened Protocol

  /** The `credentials` dict of a `connect_profile` message: each key may be absent. */
  datatype CredentialFields = CredentialFields(
    username: Option<string> := None,
    password: Option<string> := None,
    adfsHost: Option<string> := None,
    certificatePath: Option<string> := None,
    timeout: Option<int> := None,
    retries: Option<int> := None,
    noSspi: Option<bool> := None,
    envMode: Option<bool> := None,
    otherKeys: bool := false)

  /** Python truthiness of the dict: present and holding at least one key. */
  predicate Supplied(credentials: Option<CredentialFields>)
    ensures Supplied(credentials) <==> credentials.Some? && credentials.value != CredentialFields()
  {
    credentials.Some? &&
    var c := credentials.value;
    c.username.Some? || c.password.Some? || c.adfsHost.Some? || c.certificatePath.Some?
    || c.timeout.Some? || c.retries.Some? || c.noSspi.Some? || c.envMode.Some? || c.otherKeys
  }

  /** The authentication request `connect_profile` builds; absent keys take their `.get` defaults. */
  function RequestFor(profile: string, c: CredentialFields): (r: AuthenticationRequest)
    ensures r.profile == profile
    ensures r.credentials.adfsHost == c.adfsHost.GetOr("") && r.credentials.certificatePath == c.certificatePath
    ensures c.timeout.None? ==> r.settings.timeout == 30
    ensures c.retries.None? ==> r.settings.retries == 3
    ensures c.noSspi.None? ==> r.settings.noSspi
    ensures c.envMode.None? ==> r.settings.envMode
  {
    AuthenticationRequest(
      profile,
      ADFSCredentials(c.username.GetOr(""), c.password.GetOr(""), c.adfsHost.GetOr(""), c.certificatePath),
      ConnectionSettings(c.timeout.GetOr(30), c.retries.GetOr(3), c.noSspi.GetOr(true), c.envMode.GetOr(true)))
  }

  /** With no setting given, the request carries exactly the default `ConnectionSettings`. */
  lemma MissingSettingsAreDefaults(profile: string, c: CredentialFields)
    requires c.timeout.None? && c.retries.None? && c.noSspi.None? && c.envMode.None?
    ensures RequestFor(profile, c).settings == ConnectionSettings()
  {
  }

  /** Which branch of `connect_profile` is taken after the socket is registered. */
  datatype ConnectPath =
    | NotConfigured
    | AlreadyAuthenticated
    | Attempt(request: AuthenticationRequest)
    | NoCredentials

  function Path(profile: string, credentials: Option<CredentialFields>, configured: seq<string>, authenticated: bool)
    : (p: ConnectPath)
    ensures p.NotConfigured? <==> profile !in configured
    ensures p.AlreadyAuthenticated? <==> profile in configured && authenticated
    ensures p.Attempt? <==> profile in configured && !authenticated && Supplied(credentials)
    ensures p.NoCredentials? <==> profile in configured && !authenticated && !Supplied(credentials)
  {
    if profile !in configured then NotConfigured
    else if authenticated then AlreadyAuthenticated
    else if Supplied(credentials) then Attempt(RequestFor(profile, credentials.value))
    else NoCredentials
  }

  /** Whether the branch ends with the profile connected, and the message of its final status. */
  function Settle(profile: string, path: ConnectPath, launch: seq<string> -> LoginRun): (r: (bool, string))
    ensures r.0 <==> path.AlreadyAuthenticated?
                     || (path.Attempt? && AuthenticationOutcome(path.request, launch(BuildCommand(path.request))).0)
    ensures path.Attempt? ==> r.1 == AuthenticationOutcome(path.request, launch(BuildCommand(path.request))).1
    ensures path.NotConfigured? ==> r.1 == "Profile '" + profile + "' not found in configuration"
  {
    match path
    case NotConfigured => (false, "Profile '" + profile + "' not found in configuration")
    case AlreadyAuthenticated => (true, "Profile '" + profile + "' already authenticated")
    case Attempt(request) => AuthenticationOutcome(request, launch(BuildCommand(request)))
    case NoCredentials => (false, "Credentials required. Please configure ADFS settings first.")
  }

  /** A profile is only ever connected when it is configured and authenticated, before or by this attempt. */
  lemma ConnectedOnlyWhenAuthenticated(profile: string, credentials: Option<CredentialFields>, configured: seq<string>,
                                       authenticated: bool, launch: seq<string> -> LoginRun)
    requires Settle(profile, Path(profile, credentials, configured, authenticated), launch).0
    ensures profile in configured
    ensures authenticated || (Supplied(credentials)
                              && var request := RequestFor(profile, credentials.value);
                              var run := launch(BuildCommand(request));
                              run.Ran? && run.process.Exited? && run.process.returnCode == 0)
  {
  }

  /**
   * The replies to an `execute_command` message, one per requested profile
   * when there is anything to run. `awaitError` is the text of the
   * `TypeError` raised by awaiting the executor's async generator; CPython
   * words it "object async_generator can't be used in 'await' expression".
   */
  function ExecuteReplies(ws: SocketId, command: string, profiles: seq<string>, connected: set<string>,
                          awaitError: string): (r: seq<Envelope>)
    ensures command == [] || profiles == [] ==> r == []
    ensures command != [] && profiles != [] ==> |r| == |profiles|
    ensures forall i :: 0 <= i < |r| ==> r[i].to == ws && r[i].msg.CommandError? && r[i].msg.profile == profiles[i]
    ensures forall i :: 0 <= i < |r| && profiles[i] !in connected ==>
              r[i].msg.error == "Profile '" + profiles[i] + "' not connected"
    ensures forall i :: 0 <= i < |r| && profiles[i] in connected ==> r[i].msg == CommandError(profiles[i], awaitError)
  {
    if command == [] || profiles == [] then []
    else seq(|profiles|, i requires 0 <= i < |profiles| => Envelope(ws, ExecuteReply(profiles[i], connected, awaitError)))
  }

  /** The reply for one requested profile. */
  function ExecuteReply(profile: string, connected: set<string>, awaitError: string): (m: Message)
    ensures m.CommandError? && m.profile == profile
    ensures profile in connected ==> m.error == awaitError
    ensures profile !in connected ==> m.error == "Profile '" + profile + "' not connected"
  {
    if profile in connected then CommandError(profile, awaitError)
    else CommandError(profile, "Profile '" + profile + "' not connected")
  }

  /** `str()` of the `AttributeError` raised by `config.get_profile_names()`. */
  const MissingProfileNames := "'ConfigManager' object has no attribute 'get_profile_names'"

  /**
   * What the corrected `connect_profile` does that the code as written never
   * does: a configured profile that is already authenticated ends connected.
   */
  lemma ConfiguredAuthenticatedConnects(profile: string, credentials: Option<CredentialFields>, configured: seq<string>,
                                        launch: seq<string> -> LoginRun)
    requires profile in configured
    ensures Settle(profile, Path(profile, credentials, configured, true), launch)
         == (true, "Profile '" + profile + "' already authenticated")
  {
    assert Path(profile, credentials, configured, true) == AlreadyAuthenticated;
  }

  /** One entry of `get_auth_status`. */
  datatype AuthStatus = AuthStatus(authenticated: bool, connected: bool)

  datatype AuthReport = AuthReport(profiles: map<string, AuthStatus>, connectedCount: nat)

  class ConnectionManager {
    var activeConnections: seq<SocketId>
    var connectedProfiles: set<string>
    var profileConnections: map<string, set<SocketId>>
    var outbox: seq<Envelope>
    const auth: ADFSAuthenticator

    constructor (auth: ADFSAuthenticator)
      ensures this.auth == auth
      ensures activeConnections == [] && connectedProfiles == {} && profileConnections == map[] && outbox == []
    {
      this.auth := auth;
      activeConnections := [];
      connectedProfiles := {};
      profileConnections := map[];
      outbox := [];
    }

    method Connect(ws: SocketId)
      modifies this
      ensures activeConnections == old(activeConnections) + [ws]
      ensures connectedProfiles == old(connectedProfiles) && profileConnections == old(profileConnections)
      ensures outbox == old(outbox)
    {
      activeConnections := activeConnections + [ws];
    }

    /** Forgets a socket everywhere; which profiles are connected does not change. */
    method Disconnect(ws: SocketId)
      modifies this
      ensures activeConnections == RemoveFirstValue(old(activeConnections), ws)
      ensures profileConnections == Dropped(old(profileConnections), ws)
      ensures connectedProfiles == old(connectedProfiles) && outbox == old(outbox)
    {
      var remaining := RemoveFirstValue(activeConnections, ws);
      var dropped := DropSocket(profileConnections, ws);
      activeConnections := remaining;
      profileConnections := dropped;
    }

    method SendPersonalMessage(msg: Message, ws: SocketId)
      modifies this
      ensures outbox == old(outbox) + [Envelope(ws, msg)]
      ensures activeConnections == old(activeConnections) && connectedProfiles == old(connectedProfiles)
      ensures profileConnections == old(profileConnections)
    {
      outbox := outbox + [Envelope(ws, msg)];
    }

    /** Sends the message to every active socket, in connection order. */
    method Broadcast(msg: Message)
      modifies this
      ensures outbox == old(outbox) + Addressed(activeConnections, msg)
      ensures activeConnections == old(activeConnections) && connectedProfiles == old(connectedProfiles)
      ensures profileConnections == old(profileConnections)
    {
      var i := 0;
      while i < |activeConnections|
        invariant 0 <= i <= |activeConnections|
        invariant outbox == old(outbox) + Addressed(activeConnections[..i], msg)
        invariant activeConnections == old(activeConnections) && connectedProfiles == old(connectedProfiles)
        invariant profileConnections == old(profileConnections)
      {
        assert Addressed(activeConnections[..i + 1], msg) == Addressed(activeConnections[..i], msg)
                                                            + [Envelope(activeConnections[i], msg)];
        outbox := outbox + [Envelope(activeConnections[i], msg)];
        i := i + 1;
      }
      assert activeConnections[..i] == activeConnections;
    }

    /**
     * Registers the socket under the profile, reports `connecting`, then
     * settles the profile: connected when configured and already
     * authenticated or authenticated now, disconnected otherwise.
     */
    method ConnectProfile(profile: string, ws: SocketId, credentials: Option<CredentialFields>,
                          configured: seq<string>, launch: seq<string> -> LoginRun)
      modifies this, auth
      ensures profileConnections
           == old(profileConnections)[profile := (if profile in old(profileConnections)
                                                  then old(profileConnections)[profile] else {}) + {ws}]
      ensures var path := Path(profile, credentials, configured, old(auth.IsAuthenticated(profile)));
        var settled := Settle(profile, path, launch);
        && connectedProfiles == (if settled.0 then old(connectedProfiles) + {profile} else old(connectedProfiles))
        && outbox == old(outbox) + [Envelope(ws, ConnectionStatus(profile, Connecting, None)),
                                    Envelope(ws, ConnectionStatus(profile, if settled.0 then Connected else Disconnected,
                                                                  Some(settled.1)))]
        && auth.authenticatedProfiles == (if path.Attempt? then old(auth.authenticatedProfiles)[profile := settled.0]
                                          else old(auth.authenticatedProfiles))
      ensures activeConnections == old(activeConnections)
    {
      var sockets := if profile in profileConnections then profileConnections[profile] else {};
      profileConnections := profileConnections[profile := sockets + {ws}];
      ghost var start, connected, authProfiles := outbox, connectedProfiles, auth.authenticatedProfiles;
      ghost var path := Path(profile, credentials, configured, auth.IsAuthenticated(profile));
      SendPersonalMessage(ConnectionStatus(profile, Connecting, None), ws);
      ghost var connecting := Envelope(ws, ConnectionStatus(profile, Connecting, None));
      assert outbox == start + [connecting];
      assert path == Path(profile, credentials, configured, auth.IsAuthenticated(profile));
      assert connectedProfiles == connected && auth.authenticatedProfiles == authProfiles;
      SettleProfile(profile, ws, credentials, configured, launch);
      assert outbox == start + [connecting, outbox[|outbox| - 1]];
    }

    /**
     * `connect_profile` as written: `config.get_profile_names()` is called on
     * a `ConfigManager`, which has no such method, so the `AttributeError` is
     * caught by the outer `except` and every call ends with a connection
     * error; the profile is never connected and the authenticator is not used.
     */
    method ConnectProfileAsWritten(profile: string, ws: SocketId, credentials: Option<CredentialFields>)
      modifies this
      ensures profileConnections
           == old(profileConnections)[profile := (if profile in old(profileConnections)
                                                  then old(profileConnections)[profile] else {}) + {ws}]
      ensures outbox == old(outbox) + [Envelope(ws, ConnectionStatus(profile, Connecting, None)),
                                       Envelope(ws, ConnectionStatus(profile, Disconnected,
                                                                     Some("Connection error: " + MissingProfileNames)))]
      ensures connectedProfiles == old(connectedProfiles) && activeConnections == old(activeConnections)
    {
      var sockets := if profile in profileConnections then profileConnections[profile] else {};
      profileConnections := profileConnections[profile := sockets + {ws}];
      SendPersonalMessage(ConnectionStatus(profile, Connecting, None), ws);
      SendPersonalMessage(ConnectionStatus(profile, Disconnected, Some("Connection error: " + MissingProfileNames)), ws);
    }

    /** The part of `connect_profile` after the `connecting` message. */
    method SettleProfile(profile: string, ws: SocketId, credentials: Option<CredentialFields>,
                         configured: seq<string>, launch: seq<string> -> LoginRun)
      modifies this, auth
      ensures var path := Path(profile, credentials, configured, old(auth.IsAuthenticated(profile)));
        var settled := Settle(profile, path, launch);
        && connectedProfiles == (if settled.0 then old(connectedProfiles) + {profile} else old(connectedProfiles))
        && outbox == old(outbox) + [Envelope(ws, ConnectionStatus(profile, if settled.0 then Connected else Disconnected,
                                                                  Some(settled.1)))]
        && auth.authenticatedProfiles == (if path.Attempt? then old(auth.authenticatedProfiles)[profile := settled.0]
                                          else old(auth.authenticatedProfiles))
      ensures activeConnections == old(activeConnections) && profileConnections == old(profileConnections)
    {
      if profile !in configured {
        SendPersonalMessage(ConnectionStatus(profile, Disconnected,
                                             Some("Profile '" + profile + "' not found in configuration")), ws);
      } else if auth.IsAuthenticated(profile) {
        connectedProfiles := connectedProfiles + {profile};
        SendPersonalMessage(ConnectionStatus(profile, Connected, Some("Profile '" + profile + "' already authenticated")), ws);
      } else if Supplied(credentials) {
        var request := RequestFor(profile, credentials.value);
        var success, message := auth.Authenticate(request, launch);
        if success {
          connectedProfiles := connectedProfiles + {profile};
          SendPersonalMessage(ConnectionStatus(profile, Connected, Some(message)), ws);
        } else {
          SendPersonalMessage(ConnectionStatus(profile, Disconnected, Some(message)), ws);
        }
      } else {
        SendPersonalMessage(ConnectionStatus(profile, Disconnected,
                                             Some("Credentials required. Please configure ADFS settings first.")), ws);
      }
    }

    /** Marks the profile disconnected, drops the socket from its set, tells every socket, and logs the profile out. */
    method DisconnectProfile(profile: string, ws: Option<SocketId>)
      modifies this, auth
      ensures connectedProfiles == old(connectedProfiles) - {profile}
      ensures profileConnections == if ws.Some? && profile in old(profileConnections)
                                    then old(profileConnections)[profile := old(profileConnections)[profile] - {ws.value}]
                                    else old(profileConnections)
      ensures outbox == old(outbox) + Addressed(activeConnections,
                                                ConnectionStatus(profile, Disconnected,
                                                                 Some("Profile '" + profile + "' disconnected")))
      ensures auth.authenticatedProfiles == old(auth.authenticatedProfiles) - {profile}
      ensures activeConnections == old(activeConnections)
    {
      if profile in connectedProfiles {
        connectedProfiles := connectedProfiles - {profile};
      }
      if ws.Some? && profile in profileConnections {
        profileConnections := profileConnections[profile := profileConnections[profile] - {ws.value}];
      }
      Broadcast(ConnectionStatus(profile, Disconnected, Some("Profile '" + profile + "' disconnected")));
      auth.Logout(profile);
    }

    method DisconnectAll()
      modifies this, auth
      ensures connectedProfiles == {} && profileConnections == map[]
      ensures auth.authenticatedProfiles == map[]
      ensures activeConnections == old(activeConnections) && outbox == old(outbox)
    {
      connectedProfiles := {};
      profileConnections := map[];
      auth.LogoutAll();
    }

    /**
     * The `execute_command` branch of the WebSocket endpoint: nothing for an
     * empty command or profile list, otherwise one `command_error` per
     * profile. For a connected profile the error is the one raised by
     * awaiting the executor (`awaitError`).
     */
    method HandleExecuteCommand(ws: SocketId, command: string, profiles: seq<string>, awaitError: string)
      modifies this
      ensures outbox == old(outbox) + ExecuteReplies(ws, command, profiles, connectedProfiles, awaitError)
      ensures activeConnections == old(activeConnections) && connectedProfiles == old(connectedProfiles)
      ensures profileConnections == old(profileConnections)
    {
      if command != [] && profiles != [] {
        var i := 0;
        while i < |profiles|
          invariant 0 <= i <= |profiles|
          invariant outbox == old(outbox) + ExecuteReplies(ws, command, profiles[..i], connectedProfiles, awaitError)
          invariant activeConnections == old(activeConnections) && connectedProfiles == old(connectedProfiles)
          invariant profileConnections == old(profileConnections)
        {
          var profile := profiles[i];
          assert profiles[..i + 1] == profiles[..i] + [profile];
          assert ExecuteReplies(ws, command, profiles[..i + 1], connectedProfiles, awaitError)
              == ExecuteReplies(ws, command, profiles[..i], connectedProfiles, awaitError)
                 + [Envelope(ws, ExecuteReply(profile, connectedProfiles, awaitError))];
          if profile in connectedProfiles {
            SendPersonalMessage(CommandError(profile, awaitError), ws);
          } else {
            SendPersonalMessage(CommandError(profile, "Profile '" + profile + "' not connected"), ws);
          }
          i := i + 1;
        }
        assert profiles[..i] == profiles;
      }
    }

    /** Python's `get_auth_status`: one entry per configured name, and the number of connected profiles. */
    function GetAuthStatus(names: seq<string>): (r: AuthReport)
      reads this, auth
      ensures r.profiles.Keys == set p | p in names
      ensures r.connectedCount == |connectedProfiles|
      ensures forall p :: p in r.profiles ==>
                r.profiles[p].connected == (p in connectedProfiles)
                && r.profiles[p].authenticated == auth.IsAuthenticated(p)
    {
      AuthReport(map p | p in names :: AuthStatus(auth.IsAuthenticated(p), p in connectedProfiles), |connectedProfiles|)
    }
  }
}
