/** Classifying request paths, and the paths the proxy itself asks for. */
module Routes {
  import opened Seqs
  import opened Percent

  datatype Verb = GET | POST | PUT | Other

  datatype Route =
    | Login
    | Sync
    | Send(room: string, kind: string, txn: string)
    | Messages(room: string)
    | Context(room: string)
    | RoomEvent(room: string)
    | Notifications
    | MediaUpload
    | MediaDownload(server: string, mediaId: string, authenticated: bool)
    | Admin(rest: string)
    | Passthrough

  function Split(s: string): (parts: seq<string>)
    ensures parts != []
  {
    if s == [] then [""]
    else
      var rest := Split(s[1..]);
      if s[0] == '/' then [""] + rest else [[s[0]] + rest[0]] + rest[1..]
  }

  function TrimSlashes(s: string): string {
    if s != [] && s[0] == '/' then TrimSlashes(s[1..]) else s
  }

  function Classify(verb: Verb, path: string): Route {
    var s := Split(TrimSlashes(path));
    var client := |s| >= 4 && s[0] == "_matrix" && s[1] == "client";
    var media := |s| >= 4 && s[0] == "_matrix" && s[1] == "media";
    if "/_ement/" <= path then Admin(path[8..])
    else if path == "/_ement" then Admin("")
    else if client && |s| == 4 && s[3] == "login" && verb.POST? then Login
    else if client && |s| == 4 && s[3] == "sync" && verb.GET? then Sync
    else if client && |s| == 8 && s[3] == "rooms" && s[5] == "send" && verb.PUT? then
      Send(Dec(s[4]), Dec(s[6]), Dec(s[7]))
    else if client && |s| == 6 && s[3] == "rooms" && s[5] == "messages" && verb.GET? then Messages(Dec(s[4]))
    else if client && |s| == 7 && s[3] == "rooms" && s[5] == "context" && verb.GET? then Context(Dec(s[4]))
    else if client && |s| == 7 && s[3] == "rooms" && s[5] == "event" && verb.GET? then RoomEvent(Dec(s[4]))
    else if client && |s| == 4 && s[3] == "notifications" && verb.GET? then Notifications
    else if media && |s| == 4 && s[3] == "upload" && verb.POST? then MediaUpload
    else if client && |s| >= 7 && s[3] == "media" && s[4] == "download" && verb.GET? then
      MediaDownload(Dec(s[5]), Dec(s[6]), true)
    else if media && |s| >= 6 && s[3] == "download" && verb.GET? then
      MediaDownload(Dec(s[4]), Dec(s[5]), false)
    else Passthrough
  }

  // ----- Building paths

  function Join(parts: seq<string>): string {
    if parts == [] then ""
    else if |parts| == 1 then parts[0]
    else parts[0] + "/" + Join(parts[1..])
  }

  /** "/_matrix/client/v3/rooms/{room}/send/{kind}/{txn}" */
  function SendPath(room: string, kind: string, txn: string): string {
    "/" + Join(["_matrix", "client", "v3", "rooms", Enc(room), "send", Enc(kind), Enc(txn)])
  }

  /** Where an encrypted event is sent: "/_matrix/client/v3/rooms/{room}/send/m.room.encrypted/{txn}" */
  function ForwardPath(room: string, txn: string): string {
    "/" + Join(["_matrix", "client", "v3", "rooms", Enc(room), "send", "m.room.encrypted", Enc(txn)])
  }

  /** "/_matrix/client/v1/media/download/{server}/{mediaId}" */
  function DownloadPath(server: string, mediaId: string): string {
    "/" + Join(["_matrix", "client", "v1", "media", "download", Enc(server), Enc(mediaId)])
  }

  lemma {:induction false} SplitSegment(a: string, b: string)
    requires '/' !in a
    ensures Split(a) == [a] && Split(a + "/" + b) == [a] + Split(b)
  {
    var all := a + "/" + b;
    if a == [] {
      assert all[1..] == b;
    } else {
      assert a[0] in a && forall c :: c in a[1..] ==> c in a;
      SplitSegment(a[1..], b);
      assert all[0] == a[0] && all[1..] == a[1..] + "/" + b;
      assert [a[0]] + a[1..] == a;
    }
  }

  /** Splitting takes apart what joining put together. */
  lemma {:induction false} SplitOfJoin(parts: seq<string>)
    requires parts != [] && forall p :: p in parts ==> '/' !in p
    ensures Split(Join(parts)) == parts
  {
    assert parts[0] in parts;
    if |parts| == 1 {
      SplitSegment(parts[0], "");
    } else {
      assert forall p :: p in parts[1..] ==> p in parts;
      SplitOfJoin(parts[1..]);
      SplitSegment(parts[0], Join(parts[1..]));
      assert parts == [parts[0]] + parts[1..];
    }
  }

  /** Trimming takes all leading slashes and nothing else. */
  lemma {:induction false} TrimmedIs(s: string)
    ensures TrimSlashes(s) == [] || TrimSlashes(s)[0] != '/'
    ensures |TrimSlashes(s)| <= |s| && s[|s| - |TrimSlashes(s)|..] == TrimSlashes(s)
    ensures forall i :: 0 <= i < |s| - |TrimSlashes(s)| ==> s[i] == '/'
  {
    if s == [] || s[0] != '/' {
    } else {
      TrimmedIs(s[1..]);
      assert forall i :: 0 < i < |s| ==> s[i] == s[1..][i - 1];
    }
  }

  lemma TrimOne(s: string)
    requires s != [] && s[0] != '/'
    ensures TrimSlashes("/" + s) == s
  {
    assert ("/" + s)[1..] == s;
  }

  /** A path of segments whose first is "_matrix" is split into just these segments, and
      is not one of the admin interface. */
  lemma MatrixPath(parts: seq<string>)
    requires |parts| >= 2 && parts[0] == "_matrix" && forall p :: p in parts ==> '/' !in p
    ensures var path := "/" + Join(parts);
            Split(TrimSlashes(path)) == parts && !("/_ement/" <= path) && path != "/_ement"
  {
    var joined := Join(parts);
    assert joined[0] == '_' && joined[1] == 'm';
    TrimOne(joined);
    SplitOfJoin(parts);
    NotAdmin("/" + joined);
  }

  lemma NotAdmin(path: string)
    requires |path| > 2 && path[2] == 'm'
    ensures !("/_ement/" <= path) && path != "/_ement"
  {
    assert "/_ement/"[2] == 'e' && "/_ement"[2] == 'e';
  }

  lemma SendSegments(room: string, kind: string, txn: string)
    ensures var s := ["_matrix", "client", "v3", "rooms", Enc(room), "send", Enc(kind), Enc(txn)];
            Split(TrimSlashes(SendPath(room, kind, txn))) == s
            && !("/_ement/" <= SendPath(room, kind, txn)) && SendPath(room, kind, txn) != "/_ement"
  {
    EncHasNoSlash(room);
    EncHasNoSlash(kind);
    EncHasNoSlash(txn);
    MatrixPath(["_matrix", "client", "v3", "rooms", Enc(room), "send", Enc(kind), Enc(txn)]);
  }

  /** The path of a send is classified as the send of just that event. */
  lemma SendRoundTrip(room: string, kind: string, txn: string)
    ensures Classify(PUT, SendPath(room, kind, txn)) == Send(room, kind, txn)
  {
    SendSegments(room, kind, txn);
    DecOfEnc(room);
    DecOfEnc(kind);
    DecOfEnc(txn);
  }

  lemma DownloadSegments(server: string, mediaId: string)
    ensures var s := ["_matrix", "client", "v1", "media", "download", Enc(server), Enc(mediaId)];
            Split(TrimSlashes(DownloadPath(server, mediaId))) == s
            && !("/_ement/" <= DownloadPath(server, mediaId)) && DownloadPath(server, mediaId) != "/_ement"
  {
    EncHasNoSlash(server);
    EncHasNoSlash(mediaId);
    MatrixPath(["_matrix", "client", "v1", "media", "download", Enc(server), Enc(mediaId)]);
  }

  /** The path of a download is classified as the authenticated download of just that file. */
  lemma DownloadRoundTrip(server: string, mediaId: string)
    ensures Classify(GET, DownloadPath(server, mediaId)) == MediaDownload(server, mediaId, true)
  {
    DownloadSegments(server, mediaId);
    DecOfEnc(server);
    DecOfEnc(mediaId);
  }

  /** A path under a room, of any version of the API. */
  function RoomPath(version: string, room: string, rest: seq<string>): string {
    "/" + Join(["_matrix", "client", version, "rooms", Enc(room)] + rest)
  }

  lemma RoomSegments(version: string, room: string, rest: seq<string>)
    requires '/' !in version && forall p :: p in rest ==> '/' !in p
    ensures var path := RoomPath(version, room, rest);
            Split(TrimSlashes(path)) == ["_matrix", "client", version, "rooms", Enc(room)] + rest
            && !("/_ement/" <= path) && path != "/_ement"
  {
    EncHasNoSlash(room);
    MatrixPath(["_matrix", "client", version, "rooms", Enc(room)] + rest);
  }

  /** Requests for a room's history are recognized in every version of the API, whatever
      event they name, and by GET alone. */
  lemma MessagesRoundTrip(verb: Verb, version: string, room: string)
    requires '/' !in version
    ensures Classify(verb, RoomPath(version, room, ["messages"])) == if verb.GET? then Messages(room) else Passthrough
  {
    RoomSegments(version, room, ["messages"]);
    DecOfEnc(room);
  }

  lemma ContextRoundTrip(verb: Verb, version: string, room: string, event: string)
    requires '/' !in version
    ensures Classify(verb, RoomPath(version, room, ["context", Enc(event)]))
            == if verb.GET? then Context(room) else Passthrough
  {
    EncHasNoSlash(event);
    RoomSegments(version, room, ["context", Enc(event)]);
    DecOfEnc(room);
  }

  lemma EventRoundTrip(verb: Verb, version: string, room: string, event: string)
    requires '/' !in version
    ensures Classify(verb, RoomPath(version, room, ["event", Enc(event)]))
            == if verb.GET? then RoomEvent(room) else Passthrough
  {
    EncHasNoSlash(event);
    RoomSegments(version, room, ["event", Enc(event)]);
    DecOfEnc(room);
  }

  lemma ForwardIsSend(room: string, txn: string)
    ensures ForwardPath(room, txn) == SendPath(room, "m.room.encrypted", txn)
  {
    var kind := "m.room.encrypted";
    assert forall c :: c in kind ==> c as int < 128 && Unreserved(c as int);
    EncOfUnreserved(kind);
  }

  /** A client's send that the proxy forwards encrypted reaches the same room under the
      same transaction ID, whatever way the client wrote its path. */
  lemma ForwardedSendKeepsTarget(path: string)
    requires Classify(PUT, path).Send?
    ensures var send := Classify(PUT, path);
            Classify(PUT, ForwardPath(send.room, send.txn)) == Send(send.room, "m.room.encrypted", send.txn)
  {
    ForwardsKeepTarget(Classify(PUT, path).room, Classify(PUT, path).txn);
  }

  lemma ForwardsKeepTarget(room: string, txn: string)
    ensures Classify(PUT, ForwardPath(room, txn)) == Send(room, "m.room.encrypted", txn)
  {
    ForwardIsSend(room, txn);
    SendRoundTrip(room, "m.room.encrypted", txn);
  }

  /** Two sends share a path only if they are the same send. */
  lemma SendPathIsInjective(room1: string, kind1: string, txn1: string, room2: string, kind2: string, txn2: string)
    requires SendPath(room1, kind1, txn1) == SendPath(room2, kind2, txn2)
    ensures room1 == room2 && kind1 == kind2 && txn1 == txn2
  {
    SendRoundTrip(room1, kind1, txn1);
    SendRoundTrip(room2, kind2, txn2);
  }

  // ----- Every other route, in every version and by every verb

  function ClientPath(version: string, rest: seq<string>): string {
    "/" + Join(["_matrix", "client", version] + rest)
  }

  function MediaPath(version: string, rest: seq<string>): string {
    "/" + Join(["_matrix", "media", version] + rest)
  }

  predicate NoSlashes(parts: seq<string>) {
    forall p :: p in parts ==> '/' !in p
  }

  lemma ClientSegments(version: string, rest: seq<string>)
    requires '/' !in version && NoSlashes(rest)
    ensures var path := ClientPath(version, rest);
            Split(TrimSlashes(path)) == ["_matrix", "client", version] + rest
            && !("/_ement/" <= path) && path != "/_ement"
  {
    MatrixPath(["_matrix", "client", version] + rest);
  }

  lemma MediaSegments(version: string, rest: seq<string>)
    requires '/' !in version && NoSlashes(rest)
    ensures var path := MediaPath(version, rest);
            Split(TrimSlashes(path)) == ["_matrix", "media", version] + rest
            && !("/_ement/" <= path) && path != "/_ement"
  {
    MatrixPath(["_matrix", "media", version] + rest);
  }

  lemma LoginRoute(verb: Verb, version: string)
    requires '/' !in version
    ensures Classify(verb, ClientPath(version, ["login"])) == if verb.POST? then Login else Passthrough
  {
    ClientSegments(version, ["login"]);
  }

  lemma SyncRoute(verb: Verb, version: string)
    requires '/' !in version
    ensures Classify(verb, ClientPath(version, ["sync"])) == if verb.GET? then Sync else Passthrough
  {
    ClientSegments(version, ["sync"]);
  }

  lemma NotificationsRoute(verb: Verb, version: string)
    requires '/' !in version
    ensures Classify(verb, ClientPath(version, ["notifications"])) == if verb.GET? then Notifications else Passthrough
  {
    ClientSegments(version, ["notifications"]);
  }

  lemma SendRoute(verb: Verb, version: string, room: string, kind: string, txn: string)
    requires '/' !in version
    ensures Classify(verb, RoomPath(version, room, ["send", Enc(kind), Enc(txn)]))
            == if verb.PUT? then Send(room, kind, txn) else Passthrough
  {
    EncHasNoSlash(kind);
    EncHasNoSlash(txn);
    RoomSegments(version, room, ["send", Enc(kind), Enc(txn)]);
    DecOfEnc(room);
    DecOfEnc(kind);
    DecOfEnc(txn);
  }

  lemma UploadRoute(verb: Verb, version: string)
    requires '/' !in version
    ensures Classify(verb, MediaPath(version, ["upload"])) == if verb.POST? then MediaUpload else Passthrough
  {
    MediaSegments(version, ["upload"]);
  }

  /** A download may go on with more segments, a file name for one. */
  lemma DownloadRoute(verb: Verb, version: string, server: string, mediaId: string, more: seq<string>)
    requires '/' !in version && NoSlashes(more)
    ensures Classify(verb, ClientPath(version, ["media", "download", Enc(server), Enc(mediaId)] + more))
            == if verb.GET? then MediaDownload(server, mediaId, true) else Passthrough
  {
    EncHasNoSlash(server);
    EncHasNoSlash(mediaId);
    var rest := ["media", "download", Enc(server), Enc(mediaId)] + more;
    ClientSegments(version, rest);
    var s := ["_matrix", "client", version] + rest;
    assert s[3] == "media" && s[4] == "download" && s[5] == Enc(server) && s[6] == Enc(mediaId);
    DecOfEnc(server);
    DecOfEnc(mediaId);
  }

  lemma LegacyDownloadRoute(verb: Verb, version: string, server: string, mediaId: string, more: seq<string>)
    requires '/' !in version && NoSlashes(more)
    ensures Classify(verb, MediaPath(version, ["download", Enc(server), Enc(mediaId)] + more))
            == if verb.GET? then MediaDownload(server, mediaId, false) else Passthrough
  {
    EncHasNoSlash(server);
    EncHasNoSlash(mediaId);
    var rest := ["download", Enc(server), Enc(mediaId)] + more;
    MediaSegments(version, rest);
    var s := ["_matrix", "media", version] + rest;
    assert s[3] == "download" && s[4] == Enc(server) && s[5] == Enc(mediaId);
    DecOfEnc(server);
    DecOfEnc(mediaId);
  }

  /** The proxy's own interface takes every path below its prefix, by any verb. */
  lemma AdminRoute(verb: Verb, rest: string)
    ensures Classify(verb, "/_ement/" + rest) == Admin(rest) && Classify(verb, "/_ement") == Admin("")
  {
    assert ("/_ement/" + rest)[8..] == rest;
  }

  /** And what a route says of a path, so that nothing else is taken for it. */
  lemma RouteTells(verb: Verb, path: string)
    ensures var s := Split(TrimSlashes(path));
            match Classify(verb, path)
            case Admin(_) => "/_ement/" <= path || path == "/_ement"
            case Passthrough => true
            case Login => verb.POST? && |s| == 4 && s[..2] == ["_matrix", "client"] && s[3] == "login"
            case Sync => verb.GET? && |s| == 4 && s[..2] == ["_matrix", "client"] && s[3] == "sync"
            case Notifications =>
              verb.GET? && |s| == 4 && s[..2] == ["_matrix", "client"] && s[3] == "notifications"
            case MediaUpload => verb.POST? && |s| == 4 && s[..2] == ["_matrix", "media"] && s[3] == "upload"
            case Send(room, kind, txn) =>
              && verb.PUT? && |s| == 8 && s[..2] == ["_matrix", "client"] && s[3] == "rooms" && s[5] == "send"
              && room == Dec(s[4]) && kind == Dec(s[6]) && txn == Dec(s[7])
            case Messages(room) =>
              && verb.GET? && |s| == 6 && s[..2] == ["_matrix", "client"] && s[3] == "rooms" && s[5] == "messages"
              && room == Dec(s[4])
            case Context(room) =>
              && verb.GET? && |s| == 7 && s[..2] == ["_matrix", "client"] && s[3] == "rooms" && s[5] == "context"
              && room == Dec(s[4])
            case RoomEvent(room) =>
              && verb.GET? && |s| == 7 && s[..2] == ["_matrix", "client"] && s[3] == "rooms" && s[5] == "event"
              && room == Dec(s[4])
            case MediaDownload(server, mediaId, authenticated) =>
              && verb.GET? && |s| >= 6 && s[0] == "_matrix"
              && (if authenticated then
                    |s| >= 7 && s[1] == "client" && s[3] == "media" && s[4] == "download"
                    && server == Dec(s[5]) && mediaId == Dec(s[6])
                  else s[1] == "media" && s[3] == "download" && server == Dec(s[4]) && mediaId == Dec(s[5]))
  {
    var s := Split(TrimSlashes(path));
    assert |s| >= 2 ==> s[..2] == [s[0], s[1]];
  }
}
