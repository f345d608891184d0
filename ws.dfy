/**
 * The `ws` script: a PlayCanvas entity that connects to the WorldTree relay,
 * asks to listen to one other user, keeps the last data frame that user
 * published, pulses when the relay pings, and sends a chat line when it is
 * clicked.  The socket is the `outbox` of frames handed to `socket.send`;
 * the DOM overlays are the strings written into them.
 */
module WsScript {
  import opened Text
  import opened Protocol

  const DefaultPresetHost := "wss://worldtree.online"
  const DefaultPresetPort := "3001"

  /** How long the emissive flash and the scale pulse run after a ping. */
  const PingEffectDuration: real := 0.5
  const PingScaleDuration: real := 0.25

  /** The text of the chat line a click on the entity sends. */
  const ClickChatText := "Hello from PlayCanvas/Viverse"

  // === Server address ======================================================

  /** `custom.trim() || preset`. */
  function ChooseSetting(custom: string, preset: string): (r: string) {
    var t := Trim(custom);
    if t != "" then t else preset
  }

  /** A custom setting that is not blank wins, with its surrounding
      whitespace removed; a blank one leaves the preset. */
  lemma ChooseSettingPicks(custom: string, preset: string)
    ensures AllWhitespace(custom) ==> ChooseSetting(custom, preset) == preset
    ensures !AllWhitespace(custom) ==>
      var r := ChooseSetting(custom, preset);
      r != "" && !IsJsWhitespace(r[0]) && !IsJsWhitespace(r[|r| - 1])
      && exists lo :: Strips(custom, lo, r)
  {
    TrimStrips(custom);
  }

  /** `getServerUrl()`: the chosen host and the chosen port, joined by a colon. */
  function GetServerUrl(customHost: string, presetHost: string, customPort: string, presetPort: string): (r: string) {
    ChooseSetting(customHost, presetHost) + ":" + ChooseSetting(customPort, presetPort)
  }

  /** The address takes both halves apart again: when the chosen port has no
      colon, the last colon-separated piece of the address is the port and
      everything before that colon is the host. */
  lemma ServerUrlParts(customHost: string, presetHost: string, customPort: string, presetPort: string)
    requires ':' !in ChooseSetting(customPort, presetPort)
    ensures var pieces := Split(GetServerUrl(customHost, presetHost, customPort, presetPort), ':');
            pieces[|pieces| - 1] == ChooseSetting(customPort, presetPort)
            && GetServerUrl(customHost, presetHost, customPort, presetPort)
               == ChooseSetting(customHost, presetHost) + ":" + pieces[|pieces| - 1]
  {
    var host := ChooseSetting(customHost, presetHost);
    var port := ChooseSetting(customPort, presetPort);
    assert GetServerUrl(customHost, presetHost, customPort, presetPort) == host + [':'] + port;
    LastPieceAfterSeparator(host, port, ':');
  }

  /** With nothing custom configured, the client connects to the preset
      WorldTree relay on port 3001. */
  lemma DefaultServerUrl()
    ensures GetServerUrl("", DefaultPresetHost, "", DefaultPresetPort) == "wss://worldtree.online:3001"
  {
  }

  // === Overlay texts =======================================================

  function EntryLine(e: (string, string)): (r: string) {
    e.0 + ": " + e.1
  }

  function EntryLines(entries: seq<(string, string)>): (r: seq<string>) {
    seq(|entries|, i requires 0 <= i < |entries| => EntryLine(entries[i]))
  }

  /** The text `updateHoverLabel` writes into the hover label. */
  function HoverLabel(data: Option<Payload>, userId: Option<string>): (r: string) {
    match data
    case Some(Record(entries)) => Join(EntryLines(entries), "\n") + "\n" + SessionLine(userId)
    case _ => "Hovered!" + "\n" + SessionLine(userId)
  }

  /** The last line of the hover label. */
  function SessionLine(userId: Option<string>): (r: string) {
    "Session UUID: " + Display(userId)
  }

  /** The lines the hover label shows: for a data object, one "key: value"
      line per entry in order (a single empty line for an empty object),
      then the session line; otherwise "Hovered!" and the session line. */
  function HoverLabelLines(data: Option<Payload>, userId: Option<string>): (r: seq<string>) {
    var session := SessionLine(userId);
    match data
    case Some(Record(entries)) =>
      (if entries == [] then [""] else EntryLines(entries)) + [session]
    case _ =>
      ["Hovered!", session]
  }

  predicate OneLine(s: string) {
    '\n' !in s
  }

  predicate OneLineEntries(data: Option<Payload>) {
    match data
    case Some(Record(entries)) =>
      forall i :: 0 <= i < |entries| ==> OneLine(entries[i].0) && OneLine(entries[i].1)
    case _ => true
  }

  /** Read line by line, the hover label is exactly `HoverLabelLines`,
      as long as no key, value or identity contains a line break itself. */
  lemma HoverLabelByLine(data: Option<Payload>, userId: Option<string>)
    requires OneLineEntries(data)
    requires userId.Some? ==> OneLine(userId.value)
    ensures Split(HoverLabel(data, userId), '\n') == HoverLabelLines(data, userId)
  {
    SessionLineIsOneLine(userId);
    match data
    case Some(Record(entries)) => RecordLabelByLine(entries, SessionLine(userId));
    case _ => TwoLines("Hovered!", SessionLine(userId));
  }

  lemma SessionLineIsOneLine(userId: Option<string>)
    requires userId.Some? ==> OneLine(userId.value)
    ensures OneLine(SessionLine(userId))
  {
    assert OneLine("Session UUID: ");
  }

  lemma TwoLines(first: string, second: string)
    requires OneLine(first) && OneLine(second)
    ensures Split(first + "\n" + second, '\n') == [first, second]
  {
    SplitJoin([first, second], '\n');
  }

  lemma RecordLabelByLine(entries: seq<(string, string)>, session: string)
    requires forall i :: 0 <= i < |entries| ==> OneLine(entries[i].0) && OneLine(entries[i].1)
    requires OneLine(session)
    ensures Split(Join(EntryLines(entries), "\n") + "\n" + session, '\n')
         == (if entries == [] then [""] else EntryLines(entries)) + [session]
  {
    var body := if entries == [] then [""] else EntryLines(entries);
    forall i | 0 <= i < |entries|
      ensures OneLine(EntryLines(entries)[i])
    {
      assert EntryLines(entries)[i] == entries[i].0 + ": " + entries[i].1;
    }
    assert Join(body, "\n") == Join(EntryLines(entries), "\n");
    JoinSnoc(body, session, "\n");
    SplitJoin(body + [session], '\n');
  }

  /** The text `updateDebugOverlay` writes into the debug overlay. */
  function DebugOverlay(userId: Option<string>, target: string): (r: string) {
    IdentityLine(userId) + "\n" + TargetLine(target)
  }

  function IdentityLine(userId: Option<string>): (r: string) {
    "Your UserID: " + Display(userId)
  }

  function TargetLine(target: string): (r: string) {
    "Listening To: " + Display(Some(target))
  }

  /** The debug overlay is two lines: the own identity and the target, each
      "N/A" while missing or empty. */
  lemma DebugOverlayByLine(userId: Option<string>, target: string)
    requires userId.Some? ==> OneLine(userId.value)
    requires OneLine(target)
    ensures Split(DebugOverlay(userId, target), '\n')
         == ["Your UserID: " + Display(userId), "Listening To: " + Display(Some(target))]
  {
    OverlayLinesAreOneLine(userId, target);
    TwoLines(IdentityLine(userId), TargetLine(target));
  }

  lemma OverlayLinesAreOneLine(userId: Option<string>, target: string)
    requires userId.Some? ==> OneLine(userId.value)
    requires OneLine(target)
    ensures OneLine(IdentityLine(userId)) && OneLine(TargetLine(target))
  {
    assert OneLine("Your UserID: ") && OneLine("Listening To: ");
  }

  // === The script ==========================================================

  class Ws {
    // Attributes, set in the editor and never written by the script.
    const targetUserId: string
    const scaleWithHeartbeat: bool
    const presetHost: string
    const customHost: string
    const presetPort: string
    const customPort: string

    /** The address of the current socket; None while there is none. */
    var socketUrl: Option<string>
    var connected: bool
    var userId: Option<string>
    var pingEffectTime: real
    var pingScaleTime: real
    var lastReceivedData: Option<Payload>
    var labelText: string
    var debugText: string
    /** Every frame handed to `socket.send`, oldest first. */
    var outbox: seq<OutFrame>

    /** Only an opened socket can have made the client connected. */
    ghost predicate Valid()
      reads this
    {
      connected ==> socketUrl.Some?
    }

    /** `initialize`: nothing received yet, and a socket opening to the
        configured address. */
    constructor (targetUserId: string, scaleWithHeartbeat: bool,
                 presetHost: string, customHost: string, presetPort: string, customPort: string)
      ensures Valid()
      ensures this.targetUserId == targetUserId && this.scaleWithHeartbeat == scaleWithHeartbeat
      ensures this.presetHost == presetHost && this.customHost == customHost
      ensures this.presetPort == presetPort && this.customPort == customPort
      ensures socketUrl == Some(GetServerUrl(customHost, presetHost, customPort, presetPort))
      ensures !connected && userId == None && lastReceivedData == None
      ensures pingEffectTime == 0.0 && pingScaleTime == 0.0
      ensures labelText == "Hovered!" && debugText == "Initializing..."
      ensures outbox == []
    {
      this.targetUserId := targetUserId;
      this.scaleWithHeartbeat := scaleWithHeartbeat;
      this.presetHost := presetHost;
      this.customHost := customHost;
      this.presetPort := presetPort;
      this.customPort := customPort;
      socketUrl := None;
      connected := false;
      userId := None;
      pingEffectTime := 0.0;
      pingScaleTime := 0.0;
      lastReceivedData := None;
      labelText := "Hovered!";
      debugText := "Initializing...";
      outbox := [];
      new;
      ConnectWebSocket();
    }

    /** `connectWebSocket`: a new socket to the configured address; run at
        start-up and by the reconnect timer `onClose` sets. */
    method ConnectWebSocket()
      requires Valid()
      modifies this`socketUrl
      ensures Valid()
      ensures socketUrl == Some(GetServerUrl(customHost, presetHost, customPort, presetPort))
    {
      socketUrl := Some(GetServerUrl(customHost, presetHost, customPort, presetPort));
    }

    /** `onOpen`: connected, and the handshake asks for an identity with no
        secret. */
    method OnOpen()
      requires Valid() && socketUrl.Some?
      modifies this`connected, this`outbox
      ensures Valid()
      ensures connected
      ensures outbox == old(outbox) + [Reconnect(None)]
    {
      connected := true;
      outbox := outbox + [Reconnect(StoredSecret())];
    }

    /** `onClose`: disconnected; nothing else changes until the reconnect
        timer fires. */
    method OnClose()
      requires Valid()
      modifies this`connected
      ensures Valid()
      ensures !connected
    {
      connected := false;
    }

    /** `updateListeningTo`: ask to listen to the target alone, if there is one. */
    method UpdateListeningTo()
      modifies this`outbox
      ensures outbox == old(outbox) + ListeningFrames(targetUserId)
    {
      if targetUserId == "" {
        return;
      }
      outbox := outbox + [OutFrame.UpdateListeningTo([targetUserId])];
    }

    method UpdateDebugOverlay()
      modifies this`debugText
      ensures debugText == DebugOverlay(userId, targetUserId)
    {
      debugText := DebugOverlay(userId, targetUserId);
    }

    method UpdateHoverLabel()
      modifies this`labelText
      ensures labelText == HoverLabel(lastReceivedData, userId)
    {
      if lastReceivedData.Some? && lastReceivedData.value.Record? {
        var preview := Join(EntryLines(lastReceivedData.value.entries), "\n");
        labelText := preview + "\n" + SessionLine(userId);
      } else {
        labelText := "Hovered!" + "\n" + SessionLine(userId);
      }
    }

    /** `handlePing`: arm the flash, and the scale pulse when enabled. */
    method HandlePing()
      modifies this`pingEffectTime, this`pingScaleTime
      ensures pingEffectTime == PingEffectDuration
      ensures pingScaleTime == if scaleWithHeartbeat then PingScaleDuration else old(pingScaleTime)
    {
      pingEffectTime := PingEffectDuration;
      if scaleWithHeartbeat {
        pingScaleTime := PingScaleDuration;
      }
    }

    /** `onMessage`: a welcome records the identity, re-sends the listening
        set and refreshes the debug overlay; a ping arms the effects; a data
        frame is kept only when it comes from the target and carries a
        payload; everything else, a frame that does not parse included, is
        dropped without a trace. */
    method OnMessage(frame: Inbound)
      requires Valid()
      modifies this`userId, this`outbox, this`debugText, this`pingEffectTime,
               this`pingScaleTime, this`lastReceivedData, this`labelText
      ensures Valid()
      ensures frame.Welcome? ==>
        userId == frame.id
        && outbox == old(outbox) + ListeningFrames(targetUserId)
        && debugText == DebugOverlay(frame.id, targetUserId)
        && unchanged(this`pingEffectTime, this`pingScaleTime, this`lastReceivedData, this`labelText)
      ensures frame.Ping? ==>
        pingEffectTime == PingEffectDuration
        && pingScaleTime == (if scaleWithHeartbeat then PingScaleDuration else old(pingScaleTime))
        && unchanged(this`userId, this`outbox, this`debugText, this`lastReceivedData, this`labelText)
      ensures frame.Data? && frame.from == Some(targetUserId) && frame.data.Some? ==>
        lastReceivedData == frame.data
        && labelText == HoverLabel(frame.data, userId)
        && unchanged(this`userId, this`outbox, this`debugText, this`pingEffectTime, this`pingScaleTime)
      ensures frame.Data? && !(frame.from == Some(targetUserId) && frame.data.Some?) ==> unchanged(this)
      ensures frame.Unrecognised? || frame.Malformed? ==> unchanged(this)
    {
      match frame
      case Welcome(id) =>
        userId := id;
        UpdateListeningTo();
        UpdateDebugOverlay();
      case Ping =>
        HandlePing();
      case Data(from, data) =>
        if from == Some(targetUserId) && data.Some? {
          lastReceivedData := data;
          UpdateHoverLabel();
        }
      case _ =>
    }

    /** `sendMessage`: one chat frame with the text, only while connected. */
    method SendMessage(text: string, now: int)
      requires Valid()
      modifies this`outbox
      ensures connected ==> outbox == old(outbox) + [Chat(text, now)]
      ensures !connected ==> outbox == old(outbox)
    {
      if !connected || socketUrl.None? {
        return;
      }
      outbox := outbox + [Chat(text, now)];
    }

    /** `onMouseDown`: a click whose ray hits this entity sends the greeting
        chat line, only while connected.  `hitThis` stands for "a camera is
        active and its ray through the click hit this entity first". */
    method OnMouseDown(hitThis: bool, now: int)
      requires Valid()
      modifies this`outbox
      ensures hitThis && connected ==> outbox == old(outbox) + [Chat(ClickChatText, now)]
      ensures !(hitThis && connected) ==> outbox == old(outbox)
    {
      if hitThis && connected {
        outbox := outbox + [Chat(ClickChatText, now)];
      }
    }
  }
}
