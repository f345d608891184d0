/**
 * The `bodyVisOrig` script: a PlayCanvas entity that draws another user's
 * body pose as fifteen spheres joined by twelve connectors.  It connects to
 * the relay, listens to one target user (changeable from a context menu),
 * keeps the last data frame that user published, and on the next frame
 * moves every joint for which the frame carries a usable position.
 * Sphere and connector entities are their positions; the socket is the
 * `outbox` of frames handed to `socket.send`.
 */
module BodyVisScript {
  import opened Text
  import opened Protocol

  /** The relay this script always connects to. */
  const ServerUrl := "wss://worldtree.onrender.com"

  /** The joints drawn, one sphere each. */
  const BodyParts: seq<string> := [
    "left_eye", "right_eye", "nose",
    "left_shoulder", "right_shoulder",
    "left_elbow", "right_elbow",
    "left_wrist", "right_wrist",
    "left_hip", "right_hip",
    "left_knee", "right_knee",
    "left_ankle", "right_ankle"
  ]

  /** The limbs drawn, one connector between each pair of joints. */
  const ConnectorPairs: seq<(string, string)> := [
    ("left_shoulder", "left_elbow"),
    ("left_elbow", "left_wrist"),
    ("right_shoulder", "right_elbow"),
    ("right_elbow", "right_wrist"),
    ("left_hip", "left_knee"),
    ("left_knee", "left_ankle"),
    ("right_hip", "right_knee"),
    ("right_knee", "right_ankle"),
    ("left_shoulder", "right_shoulder"),
    ("left_hip", "right_hip"),
    ("left_shoulder", "left_hip"),
    ("right_shoulder", "right_hip")
  ]

  /** `pair.join('-')`, which for two joints is the first, a '-' and the
      second: the name a connector is stored under. */
  function PairKey(pair: (string, string)): (r: string) {
    pair.0 + "-" + pair.1
  }

  /** The connector names a table gives. */
  ghost function ConnectorKeys(pairs: seq<(string, string)>): (r: set<string>) {
    set i | 0 <= i < |pairs| :: PairKey(pairs[i])
  }

  // === The static tables ===================================================

  lemma BodyPartsDistinct()
    ensures forall i, j :: 0 <= i < j < |BodyParts| ==> BodyParts[i] != BodyParts[j]
  {
  }

  /** No joint name contains the separators keys are built with. */
  lemma BodyPartNamesPlain()
    ensures forall i :: 0 <= i < |BodyParts| ==> '-' !in BodyParts[i] && ':' !in BodyParts[i]
  {
  }

  /** Every connector joins two of the drawn joints. */
  lemma ConnectorJointsAreBodyParts()
    ensures forall i :: 0 <= i < |ConnectorPairs| ==>
      ConnectorPairs[i].0 in BodyParts && ConnectorPairs[i].1 in BodyParts
  {
  }

  lemma ConnectorPairsDistinct()
    ensures forall i, j :: 0 <= i < j < |ConnectorPairs| ==> ConnectorPairs[i] != ConnectorPairs[j]
  {
  }

  /** Keys built from distinct pairs whose first joints hold no '-' are
      distinct. */
  lemma PairKeysDistinct(pairs: seq<(string, string)>)
    requires forall i :: 0 <= i < |pairs| ==> '-' !in pairs[i].0
    requires forall i, j :: 0 <= i < j < |pairs| ==> pairs[i] != pairs[j]
    ensures forall i, j :: 0 <= i < j < |pairs| ==> PairKey(pairs[i]) != PairKey(pairs[j])
  {
    forall i, j | 0 <= i < j < |pairs|
      ensures PairKey(pairs[i]) != PairKey(pairs[j])
    {
      assert PairKey(pairs[i]) == pairs[i].0 + ['-'] + pairs[i].1;
      assert PairKey(pairs[j]) == pairs[j].0 + ['-'] + pairs[j].1;
      SeparatedInjective(pairs[i].0, pairs[i].1, pairs[j].0, pairs[j].1, '-');
    }
  }

  /** The twelve connector names are pairwise distinct and each names a
      connector, so every lookup `update` makes finds its own connector. */
  lemma ConnectorKeysDistinct()
    ensures |ConnectorKeys(ConnectorPairs)| == |ConnectorPairs| == 12
    ensures forall i, j :: 0 <= i < j < |ConnectorPairs| ==>
      PairKey(ConnectorPairs[i]) != PairKey(ConnectorPairs[j])
  {
    BodyPartNamesPlain();
    ConnectorJointsAreBodyParts();
    ConnectorPairsDistinct();
    PairKeysDistinct(ConnectorPairs);
    DistinctImageSize(ConnectorPairs, |ConnectorPairs|);
  }

  lemma {:induction false} DistinctImageSize(pairs: seq<(string, string)>, n: nat)
    requires n <= |pairs|
    requires forall i, j :: 0 <= i < j < |pairs| ==> PairKey(pairs[i]) != PairKey(pairs[j])
    ensures |set i | 0 <= i < n :: PairKey(pairs[i])| == n
  {
    if n > 0 {
      DistinctImageSize(pairs, n - 1);
      var before := set i | 0 <= i < n - 1 :: PairKey(pairs[i]);
      assert (set i | 0 <= i < n :: PairKey(pairs[i])) == before + {PairKey(pairs[n - 1])};
      assert PairKey(pairs[n - 1]) !in before;
    }
  }

  /** The key `update` reads one coordinate of a joint from. */
  function CoordinateKey(part: string, axis: string): (r: string) {
    part + ":" + axis
  }

  /** Different joints or different axes are read from different keys. */
  lemma CoordinateKeysDistinct(part: string, axis: string, part': string, axis': string)
    requires part in BodyParts && part' in BodyParts
    requires (part, axis) != (part', axis')
    ensures CoordinateKey(part, axis) != CoordinateKey(part', axis')
  {
    BodyPartNamesPlain();
    assert CoordinateKey(part, axis) == part + [':'] + axis;
    assert CoordinateKey(part', axis') == part' + [':'] + axis';
    SeparatedInjective(part, axis, part', axis', ':');
  }

  // === The joint rule ======================================================

  datatype Vec3 = Vec3(x: real, y: real, z: real)

  const Origin := Vec3(0.0, 0.0, 0.0)

  /** `v.scale(k)`. */
  function Scale(v: Vec3, k: real): (r: Vec3) {
    Vec3(v.x * k, v.y * k, v.z * k)
  }

  /** `parseFloat(data[key])`; `parse` stands for `parseFloat`, with None
      for NaN, and a missing key reads as undefined, which is NaN. */
  function Coordinate(data: Payload, key: string, parse: string -> Option<real>): (r: Option<real>) {
    match Lookup(data, key)
    case None => None
    case Some(text) => parse(text)
  }

  /** `!isNaN(c) && c !== 0` */
  predicate Usable(c: Option<real>) {
    c.Some? && c.value != 0.0
  }

  /** The position a data record gives a joint, if it gives one. */
  function ReadJoint(data: Payload, part: string, parse: string -> Option<real>): (r: Option<Vec3>) {
    var x := Coordinate(data, CoordinateKey(part, "x"), parse);
    var y := Coordinate(data, CoordinateKey(part, "y"), parse);
    var z := Coordinate(data, CoordinateKey(part, "z"), parse);
    if Usable(x) && Usable(y) && Usable(z) then Some(Vec3(x.value, y.value, z.value)) else None
  }

  /** Where `update` leaves a joint that stood at `current`. */
  function NextPosition(current: Vec3, data: Payload, part: string, k: real,
                        parse: string -> Option<real>): (r: Vec3) {
    match ReadJoint(data, part, parse)
    case Some(v) => Scale(v, k)
    case None => current
  }

  /** A joint moves only when all three of its keys are present, parse as
      numbers and are non-zero, and then it moves to those numbers scaled;
      a joint missing any key, or with a coordinate that is NaN or zero,
      stays where it was. */
  lemma JointRule(current: Vec3, data: Payload, part: string, k: real, parse: string -> Option<real>)
    ensures var x := Coordinate(data, CoordinateKey(part, "x"), parse);
            var y := Coordinate(data, CoordinateKey(part, "y"), parse);
            var z := Coordinate(data, CoordinateKey(part, "z"), parse);
            var r := NextPosition(current, data, part, k, parse);
            (Usable(x) && Usable(y) && Usable(z) ==> r == Vec3(x.value * k, y.value * k, z.value * k))
            && (!(Usable(x) && Usable(y) && Usable(z)) ==> r == current)
            && (Lookup(data, CoordinateKey(part, "x")).None? ==> r == current)
  {
  }

  /** A data payload that is not an object moves no joint. */
  lemma ScalarMovesNothing(current: Vec3, text: string, part: string, k: real, parse: string -> Option<real>)
    ensures NextPosition(current, Scalar(text), part, k, parse) == current
  {
  }

  /** How a connector is placed: not yet, or spanning two joint positions
      (its midpoint, length and orientation follow from the two ends). */
  datatype Placement = Unplaced | Spanning(from: Vec3, to: Vec3)

  // === The script ==========================================================

  /** The facts about the two tables that `update` relies on: joints are
      distinct, every connector joins two joints, and connector names are
      distinct. */
  ghost predicate TablesSound(parts: seq<string>, pairs: seq<(string, string)>) {
    (forall i, j :: 0 <= i < j < |parts| ==> parts[i] != parts[j])
    && (forall i :: 0 <= i < |pairs| ==> pairs[i].0 in parts && pairs[i].1 in parts)
    && (forall i, j :: 0 <= i < j < |pairs| ==> PairKey(pairs[i]) != PairKey(pairs[j]))
  }

  lemma TablesAreSound()
    ensures TablesSound(BodyParts, ConnectorPairs)
  {
    BodyPartsDistinct();
    ConnectorJointsAreBodyParts();
    ConnectorKeysDistinct();
  }

  /** The sphere positions after the loop of `update` has applied the joint
      rule to each joint of `parts` in turn. */
  function MoveAll(positions: map<string, Vec3>, parts: seq<string>, data: Payload, k: real,
                   parse: string -> Option<real>): (r: map<string, Vec3>)
  {
    if parts == [] then positions
    else
      var part := parts[|parts| - 1];
      var moved := MoveAll(positions, parts[..|parts| - 1], data, k, parse);
      match ReadJoint(data, part, parse)
      case Some(v) => moved[part := Scale(v, k)]
      case None => moved
  }

  /** Moving the joints of `parts` that already have spheres adds no sphere,
      applies the joint rule to each of them and leaves every other sphere
      where it was. */
  lemma {:induction false} MoveAllMoves(positions: map<string, Vec3>, parts: seq<string>, data: Payload,
                                        k: real, parse: string -> Option<real>)
    requires forall i :: 0 <= i < |parts| ==> parts[i] in positions
    ensures MoveAll(positions, parts, data, k, parse).Keys == positions.Keys
    ensures forall p :: p in positions ==>
      MoveAll(positions, parts, data, k, parse)[p]
      == if p in parts then NextPosition(positions[p], data, p, k, parse) else positions[p]
  {
    if parts != [] {
      var n := |parts| - 1;
      MoveAllMoves(positions, parts[..n], data, k, parse);
      assert forall p :: p in parts <==> p in parts[..n] || p == parts[n];
    }
  }

  /** The connector map after the loop of `update` has placed each pair in
      `pairs` in turn between its two joints. */
  function PlaceAll(links: map<string, Placement>, pairs: seq<(string, string)>,
                    joints: map<string, Vec3>): (r: map<string, Placement>)
    requires forall i :: 0 <= i < |pairs| ==> pairs[i].0 in joints && pairs[i].1 in joints
  {
    if pairs == [] then links
    else
      var last := pairs[|pairs| - 1];
      PlaceAll(links, pairs[..|pairs| - 1], joints)[PairKey(last) := Spanning(joints[last.0], joints[last.1])]
  }

  /** Placing connectors that already have entries adds no entry. */
  lemma {:induction false} PlaceAllKeepsKeys(links: map<string, Placement>, pairs: seq<(string, string)>,
                                             joints: map<string, Vec3>)
    requires forall i :: 0 <= i < |pairs| ==> pairs[i].0 in joints && pairs[i].1 in joints
    requires forall i :: 0 <= i < |pairs| ==> PairKey(pairs[i]) in links
    ensures PlaceAll(links, pairs, joints).Keys == links.Keys
  {
    if pairs != [] {
      PlaceAllKeepsKeys(links, pairs[..|pairs| - 1], joints);
    }
  }

  /** When no two pairs share a key, placing the connectors leaves each
      pair's connector spanning its own two joints. */
  lemma {:induction false} PlaceAllSpans(links: map<string, Placement>, pairs: seq<(string, string)>,
                                         joints: map<string, Vec3>)
    requires forall i :: 0 <= i < |pairs| ==> pairs[i].0 in joints && pairs[i].1 in joints
    requires forall i, j :: 0 <= i < j < |pairs| ==> PairKey(pairs[i]) != PairKey(pairs[j])
    ensures forall i :: 0 <= i < |pairs| ==>
      PairKey(pairs[i]) in PlaceAll(links, pairs, joints)
      && PlaceAll(links, pairs, joints)[PairKey(pairs[i])] == Spanning(joints[pairs[i].0], joints[pairs[i].1])
  {
    if pairs != [] {
      var n := |pairs| - 1;
      PlaceAllSpans(links, pairs[..n], joints);
      assert forall i :: 0 <= i < n ==> pairs[..n][i] == pairs[i];
    }
  }

  /** Placing connectors leaves every entry that is not one of their
      connectors as it was. */
  lemma {:induction false} PlaceAllLeavesOthers(links: map<string, Placement>, pairs: seq<(string, string)>,
                                                joints: map<string, Vec3>, key: string)
    requires forall i :: 0 <= i < |pairs| ==> pairs[i].0 in joints && pairs[i].1 in joints
    requires key in links && key !in ConnectorKeys(pairs)
    ensures key in PlaceAll(links, pairs, joints) && PlaceAll(links, pairs, joints)[key] == links[key]
  {
    if pairs != [] {
      var n := |pairs| - 1;
      assert PairKey(pairs[n]) in ConnectorKeys(pairs);
      assert forall i :: 0 <= i < n ==> pairs[..n][i] == pairs[i] && PairKey(pairs[i]) in ConnectorKeys(pairs);
      PlaceAllLeavesOthers(links, pairs[..n], joints, key);
    }
  }

  /** With a sphere for every joint and a connector for every pair, each
      lookup `update` makes succeeds: every joint has its sphere, both ends
      of every connector have theirs, and every pair's name has its
      connector. */
  lemma LookupsSucceed(parts: seq<string>, pairs: seq<(string, string)>,
                       joints: map<string, Vec3>, links: map<string, Placement>)
    requires forall i :: 0 <= i < |pairs| ==> pairs[i].0 in parts && pairs[i].1 in parts
    requires joints.Keys == (set i | 0 <= i < |parts| :: parts[i])
    requires links.Keys == (set i | 0 <= i < |pairs| :: PairKey(pairs[i]))
    ensures forall i :: 0 <= i < |parts| ==> parts[i] in joints
    ensures forall i :: 0 <= i < |pairs| ==> pairs[i].0 in joints && pairs[i].1 in joints
    ensures forall i :: 0 <= i < |pairs| ==> PairKey(pairs[i]) in links
  {
    forall i | 0 <= i < |pairs|
      ensures pairs[i].0 in joints && pairs[i].1 in joints
    {
      var a :| 0 <= a < |parts| && parts[a] == pairs[i].0;
      var b :| 0 <= b < |parts| && parts[b] == pairs[i].1;
    }
  }

  /** What one run of `update` past its ready check does, for sound tables
      and a sphere for every joint and a connector for every pair: every
      joint moves by the joint rule and no sphere appears or disappears;
      then every connector spans the new positions of its two joints and no
      connector appears or disappears. */
  lemma UpdateMovesAndPlaces(parts: seq<string>, pairs: seq<(string, string)>,
                             positions: map<string, Vec3>, connectors: map<string, Placement>,
                             data: Payload, k: real, parse: string -> Option<real>)
    requires TablesSound(parts, pairs)
    requires positions.Keys == (set i | 0 <= i < |parts| :: parts[i])
    requires connectors.Keys == (set i | 0 <= i < |pairs| :: PairKey(pairs[i]))
    ensures var moved := MoveAll(positions, parts, data, k, parse);
            moved.Keys == positions.Keys
            && (forall p :: p in positions ==> moved[p] == NextPosition(positions[p], data, p, k, parse))
            && (forall i :: 0 <= i < |pairs| ==> pairs[i].0 in moved && pairs[i].1 in moved)
    ensures var moved := MoveAll(positions, parts, data, k, parse);
            var placed := PlaceAll(connectors, pairs, moved);
            placed.Keys == connectors.Keys
            && forall i :: 0 <= i < |pairs| ==>
                 placed[PairKey(pairs[i])] == Spanning(moved[pairs[i].0], moved[pairs[i].1])
  {
    LookupsSucceed(parts, pairs, positions, connectors);
    var moved := MoveAll(positions, parts, data, k, parse);
    MoveAllMoves(positions, parts, data, k, parse);
    forall p | p in positions
      ensures p in parts
    {
      var i :| 0 <= i < |parts| && parts[i] == p;
    }
    PlaceAllKeepsKeys(connectors, pairs, moved);
    PlaceAllSpans(connectors, pairs, moved);
  }

  /** The `forEach` over the joints in `initialize`: one sphere per joint,
      at the origin. */
  method NewSpheres(parts: seq<string>) returns (spheres: map<string, Vec3>)
    ensures spheres.Keys == set i | 0 <= i < |parts| :: parts[i]
    ensures forall p :: p in spheres ==> spheres[p] == Origin
  {
    spheres := map[];
    for i := 0 to |parts|
      invariant spheres.Keys == set j | 0 <= j < i :: parts[j]
      invariant forall p :: p in spheres ==> spheres[p] == Origin
    {
      spheres := spheres[parts[i] := Origin];
    }
  }

  /** The `forEach` over the pairs in `initialize`: one connector per pair,
      stored under the pair's name and not yet placed. */
  method NewConnectors(pairs: seq<(string, string)>) returns (links: map<string, Placement>)
    ensures links.Keys == set i | 0 <= i < |pairs| :: PairKey(pairs[i])
    ensures forall key :: key in links ==> links[key] == Unplaced
  {
    links := map[];
    for i := 0 to |pairs|
      invariant links.Keys == set j | 0 <= j < i :: PairKey(pairs[j])
      invariant forall key :: key in links ==> links[key] == Unplaced
    {
      links := links[PairKey(pairs[i]) := Unplaced];
    }
  }

  class BodyVisOrig {
    // Attributes and tables the script never writes.
    const scaleMultiplier: real
    const enableContextMenu: bool
    const bodyParts: seq<string>
    const connectorPairs: seq<(string, string)>

    /** Set in the editor and overwritten from the context menu. */
    var targetUserId: string
    /** The address of the current socket; None while there is none. */
    var socketUrl: Option<string>
    var connected: bool
    var userId: Option<string>
    var lastReceivedData: Payload
    var newDataReady: bool
    /** Local position of each joint's sphere. */
    var positions: map<string, Vec3>
    /** Placement of each connector, by `PairKey`. */
    var connectors: map<string, Placement>
    /** Every frame handed to `socket.send`, oldest first. */
    var outbox: seq<OutFrame>

    /** Only an opened socket can have made the client connected; both ends
        of every connector are joints; there is a sphere for every joint and
        a connector for every pair, and nothing else. */
    ghost predicate Valid()
      reads this
    {
      (connected ==> socketUrl.Some?)
      && (forall i :: 0 <= i < |connectorPairs| ==> connectorPairs[i].0 in bodyParts && connectorPairs[i].1 in bodyParts)
      && positions.Keys == (set i | 0 <= i < |bodyParts| :: bodyParts[i])
      && connectors.Keys == (set i | 0 <= i < |connectorPairs| :: PairKey(connectorPairs[i]))
    }

    /** `initialize`: a sphere at the origin for every joint, an unplaced
        connector for every pair, an empty data record and a socket opening
        to the relay. */
    constructor (targetUserId: string, scaleMultiplier: real, enableContextMenu: bool)
      ensures Valid()
      ensures bodyParts == BodyParts && connectorPairs == ConnectorPairs
      ensures TablesSound(bodyParts, connectorPairs)
      ensures this.targetUserId == targetUserId
      ensures this.scaleMultiplier == scaleMultiplier && this.enableContextMenu == enableContextMenu
      ensures socketUrl == Some(ServerUrl)
      ensures !connected && userId == None
      ensures lastReceivedData == Record([]) && !newDataReady
      ensures forall p :: p in positions ==> positions[p] == Origin
      ensures forall key :: key in connectors ==> connectors[key] == Unplaced
      ensures outbox == []
    {
      var parts, pairs := BodyParts, ConnectorPairs;
      var spheres := NewSpheres(parts);
      var links := NewConnectors(pairs);
      TablesAreSound();
      bodyParts := parts;
      connectorPairs := pairs;
      this.targetUserId := targetUserId;
      this.scaleMultiplier := scaleMultiplier;
      this.enableContextMenu := enableContextMenu;
      socketUrl := None;
      connected := false;
      userId := None;
      lastReceivedData := Record([]);
      newDataReady := false;
      positions := spheres;
      connectors := links;
      outbox := [];
      new;
      ConnectWebSocket();
    }

    /** `connectWebSocket`: a new socket to the relay; run at start-up and
        by the reconnect timer `onClose` sets. */
    method ConnectWebSocket()
      requires Valid()
      modifies this`socketUrl
      ensures Valid()
      ensures socketUrl == Some(ServerUrl)
    {
      socketUrl := Some(ServerUrl);
    }

    /** `onOpen`: connected, and the handshake asks for an identity with no
        secret. */
    method OnOpen()
      requires Valid() && socketUrl.Some?
      modifies this`connected, this`outbox
      ensures Valid()
      ensures connected
      ensures outbox == old(outbox) + [Reconnect(None)]
    {
      connected := true;
      outbox := outbox + [Reconnect(StoredSecret())];
    }

    /** `onClose`: disconnected; nothing else changes until the reconnect
        timer fires. */
    method OnClose()
      requires Valid()
      modifies this`connected
      ensures Valid()
      ensures !connected
    {
      connected := false;
    }

    /** `updateListeningTo`: ask to listen to the target alone, if there is one. */
    method UpdateListeningTo()
      modifies this`outbox
      ensures outbox == old(outbox) + ListeningFrames(targetUserId)
    {
      if targetUserId == "" {
        return;
      }
      outbox := outbox + [OutFrame.UpdateListeningTo([targetUserId])];
    }

    /** `onMessage`: a welcome records the identity and re-sends the
        listening set; a data frame from the target with a payload replaces
        the record and marks it ready; every other frame, one that does not
        parse included, is dropped. */
    method OnMessage(frame: Inbound)
      requires Valid()
      modifies this`userId, this`outbox, this`lastReceivedData, this`newDataReady
      ensures Valid()
      ensures frame.Welcome? ==>
        userId == frame.id
        && outbox == old(outbox) + ListeningFrames(targetUserId)
        && unchanged(this`lastReceivedData, this`newDataReady)
      ensures frame.Data? && frame.from == Some(targetUserId) && frame.data.Some? ==>
        lastReceivedData == frame.data.value && newDataReady
        && unchanged(this`userId, this`outbox)
      ensures !frame.Welcome? && !(frame.Data? && frame.from == Some(targetUserId) && frame.data.Some?) ==>
        unchanged(this)
    {
      match frame
      case Welcome(id) =>
        userId := id;
        UpdateListeningTo();
      case Data(from, data) =>
        if from == Some(targetUserId) && data.Some? {
          lastReceivedData := data.value;
          newDataReady := true;
        }
      case _ =>
    }

    /** The context menu's submit button: the typed text becomes the only
        target, and the relay is told so (nothing is sent for empty text). */
    method SubmitTarget(input: string)
      requires enableContextMenu
      modifies this`targetUserId, this`outbox
      ensures targetUserId == input
      ensures outbox == old(outbox) + ListeningFrames(input)
    {
      targetUserId := input;
      UpdateListeningTo();
    }

    /** `update`: nothing unless a new record is ready; then every joint the
        record gives a usable position moves there (scaled), every other
        joint stays, every connector spans its two joints again, and the
        record is no longer ready.  `parse` stands for `parseFloat`. */
    method Update(parse: string -> Option<real>)
      requires Valid()
      modifies this`positions, this`connectors, this`newDataReady
      ensures Valid()
      ensures !old(newDataReady) ==> unchanged(this)
      ensures old(newDataReady) ==>
        !newDataReady
        && positions == MoveAll(old(positions), bodyParts, lastReceivedData, scaleMultiplier, parse)
        && connectors == PlaceAll(old(connectors), connectorPairs, positions)
    {
      if !newDataReady {
        return;
      }
      MoveJoints(parse);
      PlaceConnectors();
      newDataReady := false;
    }

    /** The loop over `bodyParts` in `update`. */
    method MoveJoints(parse: string -> Option<real>)
      requires Valid()
      modifies this`positions
      ensures Valid()
      ensures positions == MoveAll(old(positions), bodyParts, lastReceivedData, scaleMultiplier, parse)
    {
      LookupsSucceed(bodyParts, connectorPairs, positions, connectors);
      var spheres := positions;
      for i := 0 to |bodyParts|
        invariant spheres == MoveAll(positions, bodyParts[..i], lastReceivedData, scaleMultiplier, parse)
      {
        var part := bodyParts[i];
        var joint := ReadJoint(lastReceivedData, part, parse);
        assert bodyParts[..i + 1][..i] == bodyParts[..i];
        if joint.Some? {
          spheres := spheres[part := Scale(joint.value, scaleMultiplier)];
        }
      }
      assert bodyParts[..|bodyParts|] == bodyParts;
      positions := spheres;
      MoveAllMoves(old(positions), bodyParts, lastReceivedData, scaleMultiplier, parse);
    }

    /** The loop over `connectorPairs` in `update`. */
    method PlaceConnectors()
      requires Valid()
      modifies this`connectors
      ensures Valid()
      ensures connectors == PlaceAll(old(connectors), connectorPairs, positions)
    {
      LookupsSucceed(bodyParts, connectorPairs, positions, connectors);
      var links := connectors;
      for i := 0 to |connectorPairs|
        invariant links == PlaceAll(connectors, connectorPairs[..i], positions)
      {
        var pair := connectorPairs[i];
        assert connectorPairs[..i + 1][..i] == connectorPairs[..i];
        links := links[PairKey(pair) := Spanning(positions[pair.0], positions[pair.1])];
      }
      assert connectorPairs[..|connectorPairs|] == connectorPairs;
      connectors := links;
      PlaceAllKeepsKeys(old(connectors), connectorPairs, positions);
    }
  }
}
