/**
 * The Copilot connectors panel: a session holding the last loaded connectors,
 * whether app-only auth is configured, and the last error, updated by
 * `refreshAppOnly` and by the messages the panel's web view posts; plus the
 * two secret commands that set and clear the stored client secret.
 */
module ConnectorPanel {

  import opened Wrappers
  import opened JsValues
  import opened Http
  import opened Editor
  import opened AppOnlyAuth
  import opened Connectors

  /** The editor's secret storage, reduced to the one key the extension uses. */
  class SecretStore {
    var secret: Option<string>

    constructor (secret: Option<string>)
      ensures this.secret == secret
    {
      this.secret := secret;
    }

    /**
     * The set-secret command with the input box's answer: an empty or cancelled
     * answer stores nothing.
     */
    method SetCommand(input: Option<string>) returns (notice: Option<Notice>)
      modifies this
      ensures secret == (if input.Some? && input.value != "" then input else old(secret))
      ensures notice == (if input.Some? && input.value != "" then Some(SecretSaved) else None)
    {
      if input.None? || input.value == "" {
        return None;
      }
      secret := input;
      notice := Some(SecretSaved);
    }

    /** The clear-secret command. */
    method ClearCommand() returns (notice: Notice)
      modifies this
      ensures secret.None? && notice == SecretCleared
    {
      secret := None;
      notice := SecretCleared;
    }
  }

  const SecretSaved := Info("Graph client secret saved.")
  const SecretCleared := Info("Graph client secret cleared.")
  const IdCopied := Info("Connector ID copied to clipboard")

  /** The replies to the (at most three) requests one refresh sends. */
  datatype Network = Network(token: Reply, v1: Reply, beta: Reply)

  /** What `render` draws: the three session variables at the time of the call. */
  datatype View = View(connectors: seq<Connector>, hasAppOnly: bool, lastError: Option<string>)

  /** Messages the web view posts; any other command is ignored. */
  datatype PanelMessage =
    | Refresh
    | CopyConnectorId(id: JsValue)
    | SetSecret(input: Option<string>)
    | ClearSecret
    | Unknown(command: string)

  /** `e?.response?.data?.error?.message || e?.message || String(e)` */
  function ErrorText(f: Fault): (r: string)
    ensures f.apiMessage != "" ==> r == f.apiMessage
    ensures f.apiMessage == "" && f.message != "" ==> r == f.message
    ensures f.apiMessage == "" && f.message == "" ==> r == f.text
    ensures r == "" ==> f.apiMessage == "" && f.message == "" && f.text == ""
  {
    if f.apiMessage != "" then f.apiMessage else if f.message != "" then f.message else f.text
  }

  /** Token, then connectors: the first error thrown, or the fetched list. */
  function Load(settings: GraphSettings, secret: Option<string>, net: Network): (r: Result<seq<Connector>, Fault>)
    ensures !Configured(settings, secret) ==> r == Failure(NotConfigured)
    ensures Configured(settings, secret) && net.token.Failed? ==> r == Failure(net.token.fault)
    ensures Configured(settings, secret) && TokenFromReply(net.token).Failure? ==>
      r == Failure(TokenFromReply(net.token).error)
    ensures Configured(settings, secret) && TokenFromReply(net.token).Success? ==>
      r == FetchConnectors(TokenFromReply(net.token).value, net.v1, net.beta).result
  {
    match AcquireToken(settings, secret, net.token).token
    case Failure(f) => Failure(f)
    case Success(token) => FetchConnectors(token, net.v1, net.beta).result
  }

  /** The requests one refresh sends, in order. */
  function LoadRequests(settings: GraphSettings, secret: Option<string>, net: Network): seq<GraphRequest> {
    var t := AcquireToken(settings, secret, net.token);
    match t.token
    case Failure(_) => t.sent
    case Success(token) => t.sent + FetchConnectors(token, net.v1, net.beta).sent
  }

  /**
   * The session after `refreshAppOnly`: the error is cleared first; a load that
   * succeeds replaces the connectors, one that fails empties them and records
   * "Failed to load connectors. " and the error's text; the configuration flag
   * is re-read either way.
   */
  function Refreshed(settings: GraphSettings, secret: Option<string>, net: Network): (v: View)
    ensures v.hasAppOnly == Configured(settings, secret)
    ensures v.lastError.None? <==> Load(settings, secret, net).Success?
    ensures v.lastError.Some? ==>
      && v.connectors == []
      && v.lastError.value == "Failed to load connectors. " + ErrorText(Load(settings, secret, net).error)
    ensures v.lastError.None? ==> v.connectors == Load(settings, secret, net).value
  {
    match Load(settings, secret, net)
    case Success(cs) => View(cs, Configured(settings, secret), None)
    case Failure(f) => View([], Configured(settings, secret), Some("Failed to load connectors. " + ErrorText(f)))
  }

  /** An error is only ever shown above an empty list. */
  predicate Consistent(v: View) {
    v.lastError.Some? ==> v.connectors == []
  }

  /**
   * The session after one message, given the stored secret once the message's
   * own secret command has run. `refresh` and `setSecret` reload only when
   * configured and otherwise just redraw; `clearSecret` empties the list.
   */
  function Step(v: View, msg: PanelMessage, settings: GraphSettings, secret: Option<string>, net: Network): (r: View)
    ensures msg.CopyConnectorId? || msg.Unknown? ==> r == v
    ensures (msg.Refresh? || msg.SetSecret?) && Configured(settings, secret) ==> r == Refreshed(settings, secret, net)
    ensures msg.Refresh? && !Configured(settings, secret) ==> r == v
    ensures msg.SetSecret? || msg.ClearSecret? ==> r.hasAppOnly == Configured(settings, secret)
    ensures msg.SetSecret? && !Configured(settings, secret) ==> r.connectors == v.connectors && r.lastError == v.lastError
    ensures msg.ClearSecret? ==> r.connectors == [] && r.lastError == v.lastError
  {
    match msg
    case Refresh =>
      if Configured(settings, secret) then Refreshed(settings, secret, net) else v
    case CopyConnectorId(_) => v
    case SetSecret(_) =>
      if Configured(settings, secret) then Refreshed(settings, secret, net) else v.(hasAppOnly := false)
    case ClearSecret => v.(hasAppOnly := Configured(settings, secret), connectors := [])
    case Unknown(_) => v
  }

  /** Every message keeps an error shown only above an empty list. */
  lemma StepKeepsConsistent(v: View, msg: PanelMessage, settings: GraphSettings, secret: Option<string>, net: Network)
    requires Consistent(v)
    ensures Consistent(Step(v, msg, settings, secret, net))
  {
  }

  /**
   * An empty list loaded without error is told apart from a failed load: the
   * first has no error text, the second always has one.
   */
  lemma EmptyListIsNotAnError(settings: GraphSettings, secret: Option<string>, net: Network)
    requires Load(settings, secret, net) == Success([])
    ensures Refreshed(settings, secret, net) == View([], Configured(settings, secret), None)
  {
  }

  /**
   * A refresh reached from the panel only runs when configured, so it always
   * sends the token request first, and reaches Graph only with a token.
   */
  lemma ConfiguredRefreshSendsTokenRequest(settings: GraphSettings, secret: Option<string>, net: Network)
    requires Configured(settings, secret)
    ensures var sent := LoadRequests(settings, secret, net);
      |sent| >= 1 && sent[0] == TokenRequest(settings.tenantId, settings.clientId, secret.value)
    ensures net.token.Failed? ==> LoadRequests(settings, secret, net) == [TokenRequest(settings.tenantId, settings.clientId, secret.value)]
  {
  }

  /**
   * A refresh when the secret has disappeared from storage redraws the session
   * as it was, configuration flag included: the flag is not re-read on this path.
   */
  lemma UnconfiguredRefreshKeepsSession(v: View, settings: GraphSettings, secret: Option<string>, net: Network)
    requires !Configured(settings, secret)
    ensures Step(v, Refresh, settings, secret, net) == v
  {
  }

  /**
   * `render` builds one row per connector from `(c.name || '').toLowerCase()`
   * and `c.id.toLowerCase()`: it throws, and draws nothing, when some connector
   * has an id that is not a string or a truthy name that is not a string.
   */
  predicate RenderThrows(connectors: seq<Connector>) {
    exists i :: 0 <= i < |connectors| && (!connectors[i].id.Str? || (Truthy(connectors[i].name) && !connectors[i].name.Str?))
  }

  /** The views one `render` of `v` adds: none when it throws. */
  function Drawn(v: View): (r: seq<View>)
    ensures r == [] <==> RenderThrows(v.connectors)
    ensures r != [] ==> r == [v]
  {
    if RenderThrows(v.connectors) then [] else [v]
  }

  /** A failed load leaves nothing that could break the next render. */
  lemma FailedLoadIsDrawn(settings: GraphSettings, secret: Option<string>, net: Network)
    requires Load(settings, secret, net).Failure?
    ensures Drawn(Refreshed(settings, secret, net)) == [Refreshed(settings, secret, net)]
  {
  }

  /**
   * A Graph item without `id` loads without error, as a connector whose every
   * field is `undefined`, and then breaks the render.
   */
  lemma ItemWithoutIdBreaksRender(token: JsValue, beta: Reply)
    ensures var fetched := FetchConnectors(token, Answered(Obj(map["value" := Arr([Obj(map[])])])), beta);
      && fetched.result == Success([Connector(Undefined, Undefined, Undefined, Undefined)])
      && RenderThrows(fetched.result.value)
  {
    var data := Obj(map["value" := Arr([Obj(map[])])]);
    assert OptGet(data, "value") == Arr([Obj(map[])]);
    assert Normalize(Obj(map[])) == Success(Connector(Undefined, Undefined, Undefined, Undefined));
    var all := NormalizeAll([Obj(map[])]);
    assert all.Success? && |all.value| == 1;
    assert all.value == [all.value[0]];
  }

  class Panel {
    var connectors: seq<Connector>
    var hasAppOnly: bool
    var lastError: Option<string>
    /** Every view drawn so far, oldest first. */
    var views: seq<View>
    /** Whether the message handler was registered: opening stops short of it when the first load's render throws. */
    var listening: bool
    /** Every request sent to the token endpoint and to Graph so far, oldest first. */
    var sent: seq<GraphRequest>

    function Current(): View
      reads this
    {
      View(connectors, hasAppOnly, lastError)
    }

    /**
     * Something has been drawn; unless the session would break the render, the
     * last view drawn is the current session; an error is only held above an empty list.
     */
    ghost predicate Valid()
      reads this
    {
      && views != []
      && (!RenderThrows(connectors) ==> views[|views| - 1] == Current())
      && Consistent(Current())
    }

    method Render()
      modifies this
      ensures views == old(views) + Drawn(Current())
      ensures Current() == old(Current()) && listening == old(listening) && sent == old(sent)
    {
      if !RenderThrows(connectors) {
        views := views + [Current()];
      }
    }

    /**
     * `refreshAppOnly`: whatever the outcome, the session becomes `Refreshed`;
     * the `finally` block then draws it, unless the render throws.
     */
    method RefreshAppOnly(settings: GraphSettings, store: SecretStore, net: Network)
      requires views != []
      modifies this
      ensures Current() == Refreshed(settings, store.secret, net)
      ensures views == old(views) + Drawn(Current())
      ensures listening == old(listening)
      ensures sent == old(sent) + LoadRequests(settings, store.secret, net)
      ensures Valid()
    {
      lastError := None;
      var attempt := AcquireToken(settings, store.secret, net.token);
      sent := sent + attempt.sent;
      var token := attempt.token;
      if token.Failure? {
        lastError := Some("Failed to load connectors. " + ErrorText(token.error));
        connectors := [];
      } else {
        var fetch := FetchConnectors(token.value, net.v1, net.beta);
        sent := sent + fetch.sent;
        var fetched := fetch.result;
        if fetched.Success? {
          connectors := fetched.value;
        } else {
          lastError := Some("Failed to load connectors. " + ErrorText(fetched.error));
          connectors := [];
        }
      }
      hasAppOnly := Configured(settings, store.secret);
      Render();
    }

    /**
     * Opening the panel: draw the empty session, then load at once if
     * configured. When that load's render throws, the command stops before the
     * message handler is registered.
     */
    constructor Open(settings: GraphSettings, store: SecretStore, net: Network)
      ensures Valid()
      ensures !Configured(settings, store.secret) ==>
        Current() == View([], false, None) && views == [Current()] && listening
      ensures Configured(settings, store.secret) ==>
        && Current() == Refreshed(settings, store.secret, net)
        && views == [View([], true, None)] + Drawn(Current())
        && (listening <==> !RenderThrows(Current().connectors))
      ensures sent == (if Configured(settings, store.secret) then LoadRequests(settings, store.secret, net) else [])
    {
      connectors := [];
      lastError := None;
      hasAppOnly := Configured(settings, store.secret);
      views := [];
      listening := false;
      sent := [];
      new;
      Render();
      if hasAppOnly {
        RefreshAppOnly(settings, store, net);
      }
      listening := !RenderThrows(connectors);
    }

    /**
     * One message from the web view, which only arrives once the handler is
     * registered. The secret commands change the store; the session then
     * follows `Step`, and refresh and the secret commands draw it unless the
     * render throws; a copy or an unknown command never draws.
     */
    method Receive(msg: PanelMessage, settings: GraphSettings, store: SecretStore, net: Network)
      returns (clipboard: Option<string>, notice: Option<Notice>)
      requires Valid()
      modifies this, store
      ensures Valid() && listening == old(listening)
      ensures !listening ==>
        store.secret == old(store.secret) && Current() == old(Current()) && views == old(views)
        && clipboard.None? && notice.None?
      ensures listening ==> store.secret == (match msg
        case SetSecret(input) => if input.Some? && input.value != "" then input else old(store.secret)
        case ClearSecret => None
        case _ => old(store.secret))
      ensures listening ==> Current() == Step(old(Current()), msg, settings, store.secret, net)
      ensures listening && (msg.Refresh? || msg.SetSecret? || msg.ClearSecret?) ==> views == old(views) + Drawn(Current())
      ensures msg.CopyConnectorId? || msg.Unknown? ==> views == old(views)
      ensures clipboard == (if listening && msg.CopyConnectorId? && msg.id.Str? then Some(msg.id.s) else None)
      ensures listening ==> notice == (match msg
        case CopyConnectorId(id) => if id.Str? then Some(IdCopied) else None
        case SetSecret(input) => if input.Some? && input.value != "" then Some(SecretSaved) else None
        case ClearSecret => Some(SecretCleared)
        case _ => None)
      ensures sent == old(sent) +
        (if listening && (msg.Refresh? || msg.SetSecret?) && Configured(settings, store.secret)
         then LoadRequests(settings, store.secret, net) else [])
    {
      clipboard, notice := None, None;
      if !listening {
        return;
      }
      match msg
      case Refresh =>
        if Configured(settings, store.secret) {
          RefreshAppOnly(settings, store, net);
        } else {
          Render();
        }
      case CopyConnectorId(id) =>
        if id.Str? {
          clipboard := Some(id.s);
          notice := Some(IdCopied);
        }
      case SetSecret(input) =>
        notice := store.SetCommand(input);
        hasAppOnly := Configured(settings, store.secret);
        if hasAppOnly {
          RefreshAppOnly(settings, store, net);
        } else {
          Render();
        }
      case ClearSecret =>
        var cleared := store.ClearCommand();
        notice := Some(cleared);
        hasAppOnly := Configured(settings, store.secret);
        connectors := [];
        Render();
      case Unknown(_) =>
    }
  }
}
