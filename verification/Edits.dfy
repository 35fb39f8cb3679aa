/** What the client is shown for an encrypted event: the placeholder, the decrypted
    event, and the edit that turns the one into the other. */
module Edits {
  import opened Seqs
  import opened Json

  /** onto with those of the fields `keys` that `from` has. */
  function CopyFields(from: Json, keys: set<string>, onto: Json): Json
    requires onto.Obj?
  {
    Obj(onto.fields + map key | key in keys && Get(from, key).Some? :: Get(from, key).value)
  }

  lemma CopiedField(from: Json, keys: set<string>, onto: Json, key: string)
    requires onto.Obj?
    ensures Get(CopyFields(from, keys, onto), key)
            == if key in keys && Get(from, key).Some? then Get(from, key) else Get(onto, key)
  {
  }

  const ENVELOPE: set<string> := {"event_id", "sender", "origin_server_ts", "room_id"}

  // ----- The placeholder

  const HINT := " This message will update in place if its key arrives."

  /** The message shown for an undecryptable event: its ID, sender, time and room under a text
      that gives the reason. */
  function Placeholder(original: Json, reason: string, session: Option<string>, repairable: bool): Json {
    var body := "\U{1F512} [undecryptable: " + reason + "]" + if repairable then HINT else "";
    var unsigned := match Get(original, "unsigned") case Some(Obj(fields)) => fields case _ => map[];
    var marker := Obj(map["utd" := Bool(true),
                          "session_id" := if session.Some? then Str(session.value) else Null]);
    Put(CopyFields(original, ENVELOPE, BarePlaceholder(body)), "unsigned", Obj(unsigned["ement_e2ee" := marker]))
  }

  function BarePlaceholder(body: string): Json {
    Obj(map["type" := Str("m.room.message"),
            "content" := Obj(map["msgtype" := Str("m.text"), "body" := Str(body)])])
  }

  // ----- The decrypted event

  /** The decrypted event with the envelope's unsigned data merged back in; nothing if
      the library's plaintext is no object. */
  function MergeUnsigned(plain: Json, envelope: Json, info: Json): Option<Json> {
    if !plain.Obj? then None
    else
      var outer := match Get(envelope, "unsigned") case Some(Obj(fields)) => fields case _ => map[];
      match Get(plain, "unsigned")
      case Some(Obj(inner)) => Some(Put(plain, "unsigned", Marked(outer + inner, info)))
      case None => Some(Put(plain, "unsigned", Marked(outer, info)))
      case Some(_) => Some(plain)
  }

  function Marked(unsigned: map<string, Json>, info: Json): Json {
    Obj(unsigned["ement_e2ee" := Obj(map["decrypted" := Bool(true), "encryption_info" := info])])
  }

  /** Merging touches nothing but `unsigned`; there the decrypted event's own entries
      win, the envelope's others survive, and the marker is set. */
  lemma MergeKeeps(plain: Json, envelope: Json, info: Json, key: string)
    requires MergeUnsigned(plain, envelope, info).Some?
    ensures var merged := MergeUnsigned(plain, envelope, info).value;
            && merged.Obj?
            && (key != "unsigned" ==> Get(merged, key) == Get(plain, key))
            && MarkerOpen(merged)
            && (Slot(plain, "unsigned").Obj? || Get(plain, "unsigned").None? ==>
                  && Get2(merged, "unsigned", "ement_e2ee").Some?
                  && Get(Get2(merged, "unsigned", "ement_e2ee").value, "encryption_info") == Some(info)
                  && (key != "ement_e2ee" ==>
                        Get2(merged, "unsigned", key)
                        == if Get2(plain, "unsigned", key).Some? then Get2(plain, "unsigned", key)
                           else Get2(envelope, "unsigned", key)))
  {
    if Slot(plain, "unsigned").Obj? || Get(plain, "unsigned").None? {
      var inner := Slot(plain, "unsigned");
      var outer := match Get(envelope, "unsigned") case Some(Obj(fields)) => fields case _ => map[];
      MergedEntries(outer, if inner.Obj? then inner.fields else map[], info, key);
      assert outer + map[] == outer;
      assert MergeUnsigned(plain, envelope, info).value
             == Put(plain, "unsigned", Marked(outer + if inner.Obj? then inner.fields else map[], info));
    }
  }

  /** There is a merged event exactly if the plaintext is an object; its marker says that it
      was decrypted, and an `unsigned` that is no object stays as it is. */
  lemma MergeExists(plain: Json, envelope: Json, info: Json)
    ensures MergeUnsigned(plain, envelope, info).Some? <==> plain.Obj?
    ensures plain.Obj? && Get(plain, "unsigned").Some? && !Get(plain, "unsigned").value.Obj? ==>
              MergeUnsigned(plain, envelope, info) == Some(plain)
    ensures plain.Obj? && (Get(plain, "unsigned").None? || Get(plain, "unsigned").value.Obj?) ==>
              var marker := Get2(MergeUnsigned(plain, envelope, info).value, "unsigned", "ement_e2ee");
              marker == Some(Obj(map["decrypted" := Bool(true), "encryption_info" := info]))
  {
  }

  lemma MergedEntries(outer: map<string, Json>, inner: map<string, Json>, info: Json, key: string)
    ensures var marked := Marked(outer + inner, info);
            && Get(marked, "ement_e2ee").Some?
            && Get(marked, "ement_e2ee").value.Obj?
            && Get(Get(marked, "ement_e2ee").value, "encryption_info") == Some(info)
            && (key != "ement_e2ee" ==>
                  Get(marked, key) == if key in inner then Some(inner[key]) else Get(Obj(outer), key))
  {
  }

  // ----- The edit

  /** The marker an edit adds to is an object, or there is none. */
  predicate MarkerOpen(plain: Json) {
    Get2(plain, "unsigned", "ement_e2ee").None? || Open(Get2(plain, "unsigned", "ement_e2ee").value)
  }

  function Notice(text: string): Json {
    Obj(map["msgtype" := Str("m.notice"), "body" := Str(text)])
  }

  /** What a decrypted event reads as: its own content, the new text of an edit, or a
      line about an event that is no message. */
  function Shown(plain: Json, kind: string): Option<Json> {
    if kind == "m.room.message" then
      match Get(plain, "content")
      case None => None
      case Some(content) =>
        var isEdit := AsStr(Get2(content, "m.relates_to", "rel_type")) == Some("m.replace");
        if isEdit && Get(content, "m.new_content").Some? then Get(content, "m.new_content")
        else Some(content)
    else if kind == "m.reaction" then
      var relation := match Get(plain, "content") case Some(c) => Get2(c, "m.relates_to", "key") case None => None;
      var key := match AsStr(relation) case Some(k) => k case None => "?";
      Some(Notice("\U{1F513} reacted with " + key))
    else
      Some(Notice("\U{1F513} [" + kind + "] decrypted; reopen the room to render it"))
  }

  /** A replacement whose target has the ID of `plain` and whose new content is what `plain`
      reads as; none if it lacks an ID, a type or an object to show. */
  function SyntheticEdit(plain: Json): Option<Json>
    requires MarkerOpen(plain)
  {
    var id := GetStr(plain, "event_id");
    var kind := GetStr(plain, "type");
    if id.None? || kind.None? then None
    else
      var shown := Shown(plain, kind.value);
      if shown.None? || !shown.value.Obj? then None
      else Some(EditOf(plain, id.value, shown.value))
  }

  function EditOf(plain: Json, id: string, shown: Json): Json
    requires shown.Obj? && MarkerOpen(plain)
  {
    var marker := match Get2(plain, "unsigned", "ement_e2ee") case Some(m) => m case None => Obj(map[]);
    CopyFields(plain, {"sender", "origin_server_ts", "room_id"},
               BareEdit(id, EditContent(id, shown), Put(marker, "repairs", Str(id))))
  }

  function EditContent(id: string, shown: Json): Json
    requires shown.Obj?
  {
    var text := Drop(shown, "m.relates_to");
    var reply := Get2(shown, "m.relates_to", "m.in_reply_to");
    var relation := map["rel_type" := Str("m.replace"), "event_id" := Str(id)];
    var relates := Obj(if reply.Some? then relation["m.in_reply_to" := reply.value] else relation);
    Put(Put(text, "m.new_content", text), "m.relates_to", relates)
  }

  function BareEdit(id: string, content: Json, marker: Json): Json {
    Obj(map["type" := Str("m.room.message"),
            "event_id" := Str(id + "~decrypted"),
            "content" := content,
            "unsigned" := Obj(map["ement_e2ee" := marker])])
  }

  /** An event has an edit exactly when it has an identity and something to show. */
  lemma EditExists(plain: Json)
    requires MarkerOpen(plain)
    ensures SyntheticEdit(plain).Some?
            <==> && GetStr(plain, "event_id").Some?
                 && GetStr(plain, "type").Some?
                 && (GetStr(plain, "type").value == "m.room.message" ==>
                       && Get(plain, "content").Some?
                       && Shown(plain, "m.room.message").value.Obj?)
  {
  }

  // ----- Event replacements, Matrix Client-Server API

  /** The section's validity rules, between an event and a replacement for it. */
  predicate ValidReplacement(original: Json, edit: Json) {
    var relates := Get2(edit, "content", "m.relates_to");
    && relates.Some?
    && GetStr(relates.value, "rel_type") == Some("m.replace")
    && GetStr(relates.value, "event_id").Some?
    && GetStr(relates.value, "event_id") == GetStr(original, "event_id")
    && Get(original, "sender") == Get(edit, "sender")
    && SameRoom(original, edit)
    && Get(original, "type") == Get(edit, "type")
    && Get(original, "state_key").None? && Get(edit, "state_key").None?
    && (var r := Get2(original, "content", "m.relates_to");
        r.None? || GetStr(r.value, "rel_type") != Some("m.replace"))
    && Get2(edit, "content", "m.new_content").Some?
    && Get2(edit, "content", "m.new_content").value.Obj?
  }

  /** The section's result: the new content in place of the old one, except that the
      original's relation stays. */
  function ApplyReplacement(original: Json, edit: Json): Json
    requires original.Obj? && ValidReplacement(original, edit)
  {
    var text := Drop(Get2(edit, "content", "m.new_content").value, "m.relates_to");
    match Get2(original, "content", "m.relates_to")
    case None => Put(original, "content", text)
    case Some(relates) => Put(original, "content", Put(text, "m.relates_to", relates))
  }

  /** Two events of one room: either names it as the other does, or leaves it to its place. */
  predicate SameRoom(a: Json, b: Json) {
    Get(a, "room_id").None? || Get(b, "room_id").None? || Get(a, "room_id") == Get(b, "room_id")
  }

  /** The decrypted event is the same event as the envelope. */
  predicate SameEnvelope(plain: Json, original: Json) {
    && Get(plain, "event_id") == Get(original, "event_id")
    && Get(plain, "sender") == Get(original, "sender")
    && Get(plain, "origin_server_ts") == Get(original, "origin_server_ts")
    && SameRoom(plain, original)
  }

  /** A placeholder has the envelope's identity and nothing else of it but `unsigned`: no
      ciphertext is carried along. */
  lemma PlaceholderField(original: Json, reason: string, session: Option<string>, repairable: bool, key: string)
    ensures var p := Placeholder(original, reason, session, repairable);
            && p.Obj?
            && (key in ENVELOPE ==> Get(p, key) == Get(original, key))
            && (key !in ENVELOPE + {"type", "content", "unsigned"} ==> Get(p, key).None?)
            && Get(p, "type") == Some(Str("m.room.message"))
            && (Get2(p, "content", key).Some? ==> key in {"msgtype", "body"})
  {
    var body := "\U{1F512} [undecryptable: " + reason + "]" + if repairable then HINT else "";
    CopiedField(original, ENVELOPE, BarePlaceholder(body), key);
  }

  lemma PlaceholderFields(original: Json, reason: string, session: Option<string>, repairable: bool)
    ensures var p := Placeholder(original, reason, session, repairable);
            && p.Obj?
            && SameEnvelope(p, original)
            && Get(p, "room_id") == Get(original, "room_id")
            && Get(p, "type") == Some(Str("m.room.message"))
            && Get(p, "state_key").None?
            && Get2(p, "content", "m.relates_to").None?
  {
    PlaceholderField(original, reason, session, repairable, "event_id");
    PlaceholderField(original, reason, session, repairable, "sender");
    PlaceholderField(original, reason, session, repairable, "origin_server_ts");
    PlaceholderField(original, reason, session, repairable, "room_id");
    PlaceholderField(original, reason, session, repairable, "state_key");
    PlaceholderField(original, reason, session, repairable, "m.relates_to");
  }

  /** The placeholder keeps the envelope's unsigned data, its transaction ID above all, and
      marks itself with the session it lacks. */
  lemma PlaceholderUnsigned(original: Json, reason: string, session: Option<string>, repairable: bool, key: string)
    requires Get(original, "unsigned").None? || Slot(original, "unsigned").Obj?
    ensures var p := Placeholder(original, reason, session, repairable);
            && (key != "ement_e2ee" ==> Get2(p, "unsigned", key) == Get2(original, "unsigned", key))
            && Get2(p, "unsigned", "ement_e2ee").Some?
            && (var marker := Get2(p, "unsigned", "ement_e2ee").value;
                && Get(marker, "utd") == Some(Bool(true))
                && GetStr(marker, "session_id") == session)
  {
  }

  predicate Contains(text: string, part: string) {
    exists i, j :: 0 <= i <= j <= |text| && text[i..j] == part
  }

  predicate EndsWith(text: string, part: string) {
    |part| <= |text| && text[|text| - |part|..] == part
  }

  /** The placeholder tells the reason, and promises an update exactly if one can come. */
  lemma PlaceholderPromises(original: Json, reason: string, session: Option<string>, repairable: bool)
    ensures var body := AsStr(Get2(Placeholder(original, reason, session, repairable), "content", "body"));
            && body.Some?
            && Contains(body.value, reason)
            && (EndsWith(body.value, HINT) <==> repairable)
  {
    var start := "\U{1F512} [undecryptable: ";
    var plain := start + reason + "]";
    var body := plain + if repairable then HINT else "";
    assert AsStr(Get2(Placeholder(original, reason, session, repairable), "content", "body")) == Some(body);
    assert body[|start|..|start| + |reason|] == reason;
    assert body[|plain|..] == if repairable then HINT else "";
    if !repairable && |body| >= |HINT| {
      assert body[|body| - |HINT|..][|HINT| - 1] == ']';
    }
  }

  lemma ContentFields(id: string, shown: Json, key: string)
    requires shown.Obj?
    ensures var content := EditContent(id, shown);
            && Get(content, "m.new_content") == Some(Drop(shown, "m.relates_to"))
            && Get(content, "m.relates_to").Some?
            && (var relates := Get(content, "m.relates_to").value;
                && GetStr(relates, "rel_type") == Some("m.replace")
                && GetStr(relates, "event_id") == Some(id)
                && Get(relates, "m.in_reply_to") == Get2(shown, "m.relates_to", "m.in_reply_to"))
            && (key != "m.new_content" && key != "m.relates_to" ==> Get(content, key) == Get(shown, key))
  {
  }

  lemma EditFields(plain: Json, id: string, shown: Json)
    requires shown.Obj? && MarkerOpen(plain)
    ensures var edit := EditOf(plain, id, shown);
            && GetStr(edit, "event_id") == Some(id + "~decrypted")
            && Get(edit, "type") == Some(Str("m.room.message"))
            && Get(edit, "content") == Some(EditContent(id, shown))
            && Get(edit, "sender") == Get(plain, "sender")
            && Get(edit, "origin_server_ts") == Get(plain, "origin_server_ts")
            && Get(edit, "room_id") == Get(plain, "room_id")
            && Get(edit, "state_key").None?
  {
    var marker := match Get2(plain, "unsigned", "ement_e2ee") case Some(m) => m case None => Obj(map[]);
    var bare := BareEdit(id, EditContent(id, shown), Put(marker, "repairs", Str(id)));
    var keys := {"sender", "origin_server_ts", "room_id"};
    CopiedField(plain, keys, bare, "event_id");
    CopiedField(plain, keys, bare, "type");
    CopiedField(plain, keys, bare, "content");
    CopiedField(plain, keys, bare, "sender");
    CopiedField(plain, keys, bare, "origin_server_ts");
    CopiedField(plain, keys, bare, "room_id");
    CopiedField(plain, keys, bare, "state_key");
  }

  /** The edit is a valid replacement for the placeholder of the same event. */
  lemma EditIsValid(original: Json, plain: Json, reason: string, session: Option<string>)
    requires MarkerOpen(plain) && SameEnvelope(plain, original) && SyntheticEdit(plain).Some?
    ensures ValidReplacement(Placeholder(original, reason, session, true), SyntheticEdit(plain).value)
  {
    PlaceholderFields(original, reason, session, true);
    var id, kind := GetStr(plain, "event_id").value, GetStr(plain, "type").value;
    var shown := Shown(plain, kind).value;
    EditFields(plain, id, shown);
    ContentFields(id, shown, "");
  }

  /** A replacement changes nothing but the content, and of that not the relation. */
  lemma AppliedContent(original: Json, edit: Json)
    requires original.Obj? && ValidReplacement(original, edit)
    ensures var message, text := ApplyReplacement(original, edit), Get2(edit, "content", "m.new_content").value;
            && Get(message, "content").Some?
            && Drop(Get(message, "content").value, "m.relates_to") == Drop(text, "m.relates_to")
            && Get2(message, "content", "m.relates_to") == Get2(original, "content", "m.relates_to")
            && (Get2(original, "content", "m.relates_to").None? ==>
                  Get(message, "content") == Some(Drop(text, "m.relates_to")))
            && forall key :: key != "content" ==> Get(message, key) == Get(original, key)
  {
    var text := Drop(Get2(edit, "content", "m.new_content").value, "m.relates_to");
    match Get2(original, "content", "m.relates_to") {
      case None =>
      case Some(relates) => assert Drop(Put(text, "m.relates_to", relates), "m.relates_to") == text;
    }
  }

  /** Of the relation the edit keeps the reply and nothing else; its new content has none, is
      repeated at the top level, and comes under an ID of its own at the event's time. */
  lemma EditKeepsReply(original: Json, plain: Json, key: string)
    requires MarkerOpen(plain) && SameEnvelope(plain, original) && SyntheticEdit(plain).Some?
    ensures var edit := SyntheticEdit(plain).value;
            var shown := Shown(plain, GetStr(plain, "type").value).value;
            && Get2(edit, "content", "m.new_content") == Some(Drop(shown, "m.relates_to"))
            && Get(Get2(edit, "content", "m.new_content").value, "m.relates_to").None?
            && Get2(edit, "content", "m.relates_to").Some?
            && Get(Get2(edit, "content", "m.relates_to").value, "m.in_reply_to")
               == Get2(shown, "m.relates_to", "m.in_reply_to")
            && (key != "m.new_content" && key != "m.relates_to" ==>
                  Get2(edit, "content", key) == Get(shown, key))
            && GetStr(edit, "event_id") == Some(GetStr(original, "event_id").value + "~decrypted")
            && Get(edit, "sender") == Get(original, "sender")
            && Get(edit, "origin_server_ts") == Get(original, "origin_server_ts")
  {
    var id, kind := GetStr(plain, "event_id").value, GetStr(plain, "type").value;
    EditFields(plain, id, Shown(plain, kind).value);
    ContentFields(id, Shown(plain, kind).value, key);
  }

  lemma DropTwice(v: Json, key: string)
    ensures Drop(Drop(v, key), key) == Drop(v, key)
  {
  }

  /** Applying the edit to the placeholder of the same event gives the message: its
      content without a relation, under the event's own ID, sender and time. */
  lemma EditTurnsPlaceholderIntoMessage(original: Json, plain: Json, reason: string, session: Option<string>)
    requires MarkerOpen(plain) && SameEnvelope(plain, original) && SyntheticEdit(plain).Some?
    ensures var placeholder := Placeholder(original, reason, session, true);
            var edit := SyntheticEdit(plain).value;
            var shown := Shown(plain, GetStr(plain, "type").value).value;
            && placeholder.Obj?
            && ValidReplacement(placeholder, edit)
            && (var message := ApplyReplacement(placeholder, edit);
                && Get(message, "content") == Some(Drop(shown, "m.relates_to"))
                && Get(message, "event_id") == Get(original, "event_id")
                && Get(message, "sender") == Get(original, "sender")
                && Get(message, "origin_server_ts") == Get(original, "origin_server_ts"))
  {
    EditIsValid(original, plain, reason, session);
    PlaceholderFields(original, reason, session, true);
    AppliedContent(Placeholder(original, reason, session, true), SyntheticEdit(plain).value);
    EditKeepsReply(original, plain, "");
    DropTwice(Shown(plain, GetStr(plain, "type").value).value, "m.relates_to");
  }

  /** The edit's marker is the decrypted event's, and names the event it repairs. */
  lemma EditKeepsMarker(plain: Json, key: string)
    requires MarkerOpen(plain) && SyntheticEdit(plain).Some?
    ensures var marker := Get2(SyntheticEdit(plain).value, "unsigned", "ement_e2ee");
            && marker.Some?
            && GetStr(marker.value, "repairs") == GetStr(plain, "event_id")
            && (key != "repairs" && Get2(plain, "unsigned", "ement_e2ee").Some? ==>
                  Get(marker.value, key) == Get(Get2(plain, "unsigned", "ement_e2ee").value, key))
  {
    var id, kind := GetStr(plain, "event_id").value, GetStr(plain, "type").value;
    var shown := Shown(plain, kind).value;
    var marker := match Get2(plain, "unsigned", "ement_e2ee") case Some(m) => m case None => Obj(map[]);
    CopiedField(plain, {"sender", "origin_server_ts", "room_id"},
                BareEdit(id, EditContent(id, shown), Put(marker, "repairs", Str(id))), "unsigned");
  }

  /** A message that is no edit is shown as it is, without its relation. */
  lemma MessageIsShownAsSent(original: Json, plain: Json, reason: string, session: Option<string>)
    requires MarkerOpen(plain) && SameEnvelope(plain, original) && SyntheticEdit(plain).Some?
    requires GetStr(plain, "type") == Some("m.room.message")
    requires AsStr(Get2(Slot(plain, "content"), "m.relates_to", "rel_type")) != Some("m.replace")
    ensures EditIsGood(original, plain, reason, session)
    ensures Get(Repaired(original, plain, reason, session), "content")
            == Some(Drop(Slot(plain, "content"), "m.relates_to"))
  {
    EditTurnsPlaceholderIntoMessage(original, plain, reason, session);
  }

  /** A message that is itself an edit is shown as the text it gives its target: the
      repaired placeholder reads just as the target does once it is edited, but for the
      target's own relation. */
  lemma EditIsShownAsItsResult(original: Json, plain: Json, reason: string, session: Option<string>, target: Json)
    requires MarkerOpen(plain) && SameEnvelope(plain, original) && SyntheticEdit(plain).Some?
    requires GetStr(plain, "type") == Some("m.room.message")
    requires target.Obj? && ValidReplacement(target, plain)
    ensures EditIsGood(original, plain, reason, session)
    ensures var edited := Get(ApplyReplacement(target, plain), "content");
            && edited.Some?
            && Get(Repaired(original, plain, reason, session), "content")
               == Some(Drop(edited.value, "m.relates_to"))
  {
    EditTurnsPlaceholderIntoMessage(original, plain, reason, session);
    AppliedContent(target, plain);
    assert Get(plain, "content").Some?;
  }

  /** Anything else is shown as a notice, which names its type or the reaction's key. */
  lemma OtherEventIsANotice(original: Json, plain: Json, reason: string, session: Option<string>)
    requires MarkerOpen(plain) && SameEnvelope(plain, original) && SyntheticEdit(plain).Some?
    requires GetStr(plain, "type").Some? && GetStr(plain, "type") != Some("m.room.message")
    ensures EditIsGood(original, plain, reason, session)
    ensures var repaired := Repaired(original, plain, reason, session);
            var kind := GetStr(plain, "type").value;
            var key := AsStr(Get2(Slot(plain, "content"), "m.relates_to", "key"));
            var body := AsStr(Get2(repaired, "content", "body"));
            && Get2(repaired, "content", "msgtype") == Some(Str("m.notice"))
            && body.Some?
            && Contains(body.value, if kind == "m.reaction" then (if key.Some? then key.value else "?") else kind)
  {
    EditTurnsPlaceholderIntoMessage(original, plain, reason, session);
    NoticeNames(plain, GetStr(plain, "type").value);
  }

  lemma NoticeNames(plain: Json, kind: string)
    requires kind != "m.room.message"
    ensures var key := AsStr(Get2(Slot(plain, "content"), "m.relates_to", "key"));
            var shown := Shown(plain, kind);
            && shown.Some? && shown.value.Obj? && Drop(shown.value, "m.relates_to") == shown.value
            && GetStr(shown.value, "msgtype") == Some("m.notice")
            && GetStr(shown.value, "body").Some?
            && Contains(GetStr(shown.value, "body").value,
                        if kind == "m.reaction" then (if key.Some? then key.value else "?") else kind)
  {
    var key := AsStr(Get2(Slot(plain, "content"), "m.relates_to", "key"));
    var part := if kind == "m.reaction" then (if key.Some? then key.value else "?") else kind;
    var before := if kind == "m.reaction" then "\U{1F513} reacted with " else "\U{1F513} [";
    var after := if kind == "m.reaction" then "" else "] decrypted; reopen the room to render it";
    PartOf(before, part, after);
    assert before + part + "" == before + part;
    var shown := Shown(plain, kind).value;
    assert shown == Notice(before + part + after);
    assert Drop(shown, "m.relates_to") == shown;
  }

  lemma PartOf(before: string, part: string, after: string)
    ensures Contains(before + part + after, part)
  {
    assert (before + part + after)[|before|..|before| + |part|] == part;
  }

  /** The placeholder of an event, with the synthetic edit applied to it. */
  function Repaired(original: Json, plain: Json, reason: string, session: Option<string>): Json
    requires EditIsGood(original, plain, reason, session)
  {
    ApplyReplacement(Placeholder(original, reason, session, true), SyntheticEdit(plain).value)
  }

  predicate EditIsGood(original: Json, plain: Json, reason: string, session: Option<string>) {
    && MarkerOpen(plain) && SyntheticEdit(plain).Some?
    && Placeholder(original, reason, session, true).Obj?
    && ValidReplacement(Placeholder(original, reason, session, true), SyntheticEdit(plain).value)
  }

  /** What a message is shown as, by its keys: the new content where it is an edit that has
      one, and its content otherwise. */
  lemma MessageShows(plain: Json)
    ensures var shown := Shown(plain, "m.room.message");
            match Get(plain, "content")
            case None => shown == None
            case Some(content) =>
              var relates := Get(content, "m.relates_to");
              if relates.Some? && GetStr(relates.value, "rel_type") == Some("m.replace")
                 && Get(content, "m.new_content").Some?
              then shown == Get(content, "m.new_content")
              else shown == Some(content)
  {
  }
}
