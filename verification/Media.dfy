/** Attachment keys: what the cache holds, and how `url` and `file` stand in for each
    other in message contents. */
module Media {
  import opened Seqs
  import opened Json

  /** What it takes to decrypt an attachment. */
  datatype FileKey = FileKey(v: Json, key: Json, iv: Json, hashes: Json)

  datatype Row = Row(key: FileKey, mimetype: Option<string>, filename: Option<string>)

  type Bytes = seq<bv8>

  function KeyJson(k: FileKey, url: string): Json {
    Obj(map["v" := k.v, "key" := k.key, "iv" := k.iv, "hashes" := k.hashes, "url" := Str(url)])
  }

  /** The `file` object of a message, if it has the shape of one. */
  function ParseFile(v: Json): Option<(string, FileKey)> {
    var url, ver, key, iv, hashes := GetStr(v, "url"), Get(v, "v"), Get(v, "key"), Get(v, "iv"), Get(v, "hashes");
    if url.Some? && ver.Some? && key.Some? && iv.Some? && hashes.Some?
    then Some((url.value, FileKey(ver.value, key.value, iv.value, hashes.value)))
    else None
  }

  // ----- Rewriting contents

  function FillMimetype(content: Json, mimetype: string): Json
    requires content.Obj?
  {
    var info := match Get(content, "info") case None => Obj(map[]) case Some(i) => i;
    if !info.Obj? then content
    else if "mimetype" in info.fields then Put(content, "info", info)
    else Put(content, "info", Put(info, "mimetype", Str(mimetype)))
  }

  /** For an encrypted room: the key the upload was cached with, in place of the url. */
  function ForEncryptedRoom(rows: map<string, Row>, content: Json): Json {
    match GetStr(content, "url")
    case None => content
    case Some(mxc) =>
      if mxc !in rows then content
      else
        var row := rows[mxc];
        var moved := Put(Drop(content, "url"), "file", KeyJson(row.key, mxc));
        if row.mimetype.None? then moved else FillMimetype(moved, row.mimetype.value)
  }

  /** Harvest one file object: cache its key, if the cache can be written, and return
      the url it is to be known by. */
  function HarvestFile(rows: map<string, Row>, file: Json, mimetype: Option<string>, filename: Option<string>,
                       writable: bool): (map<string, Row>, Option<string>) {
    match ParseFile(file)
    case None => (rows, None)
    case Some((url, key)) =>
      if writable then (rows[url := Row(key, mimetype, filename)], Some(url)) else (rows, None)
  }

  function HarvestMain(rows: map<string, Row>, content: Json, writable: bool): (map<string, Row>, Json) {
    match Get(content, "file")
    case None => (rows, content)
    case Some(file) =>
      var mimetype, filename := AsStr(Get2(content, "info", "mimetype")), GetStr(content, "body");
      var (rows', url) := HarvestFile(rows, file, mimetype, filename, writable);
      if url.None? || !content.Obj? then (rows', content)
      else (rows', Put(Drop(content, "file"), "url", Str(url.value)))
  }

  function HarvestThumbnail(rows: map<string, Row>, content: Json, writable: bool): (map<string, Row>, Json) {
    match Get(content, "info")
    case Some(Obj(fields)) =>
      var info := Obj(fields);
      if "thumbnail_file" !in fields || !content.Obj? then (rows, content)
      else
        var (rows', url) := HarvestFile(rows, fields["thumbnail_file"],
                                        AsStr(Get2(info, "thumbnail_info", "mimetype")), None, writable);
        if url.None? then (rows', content)
        else (rows', Put(content, "info", Put(Drop(info, "thumbnail_file"), "thumbnail_url", Str(url.value))))
    case _ => (rows, content)
  }

  function HarvestContent(rows: map<string, Row>, content: Json, writable: bool): (map<string, Row>, Json) {
    var (rows', content') := HarvestMain(rows, content, writable);
    HarvestThumbnail(rows', content', writable)
  }

  function HarvestEvent(rows: map<string, Row>, event: Json, writable: bool): (map<string, Row>, Json) {
    if !event.Obj? || !Slot(event, "content").Obj? then (rows, event)
    else
      var (rows', content) := HarvestContent(rows, Slot(event, "content"), writable);
      (rows', Put(event, "content", content))
  }

  /** Harvesting changes nothing of an event but its content. */
  lemma HarvestKeepsEvent(rows: map<string, Row>, event: Json, writable: bool, key: string)
    requires key != "content"
    ensures Get(HarvestEvent(rows, event, writable).1, key) == Get(event, key)
    ensures event.Obj? <==> HarvestEvent(rows, event, writable).1.Obj?
  {
  }

  /** A `file` is one exactly if it has a textual url and the four parts of a key. */
  lemma FileParses(v: Json)
    ensures ParseFile(v).Some?
            <==> GetStr(v, "url").Some? && forall key :: key in {"v", "key", "iv", "hashes"} ==> Get(v, key).Some?
    ensures ParseFile(v).Some? ==>
              var (url, k) := ParseFile(v).value;
              && Some(url) == GetStr(v, "url") && Some(k.v) == Get(v, "v") && Some(k.key) == Get(v, "key")
              && Some(k.iv) == Get(v, "iv") && Some(k.hashes) == Get(v, "hashes")
  {
  }

  /** The url and key of a file that can be harvested, if it can. */
  function Harvestable(file: Option<Json>, writable: bool): Option<(string, FileKey)> {
    if file.Some? && writable then ParseFile(file.value) else None
  }

  /** The main file gives way to its url, and its key is cached with the content's mimetype
      and body; or nothing happens. */
  lemma MainHarvested(rows: map<string, Row>, content: Json, writable: bool, key: string)
    requires content.Obj?
    ensures var (rows', got) := HarvestMain(rows, content, writable);
            && got.Obj? && (key != "file" && key != "url" ==> Get(got, key) == Get(content, key))
            && match Harvestable(Get(content, "file"), writable)
               case None => rows' == rows && got == content
               case Some((url, k)) =>
                 && Get(got, "file").None? && Get(got, "url") == Some(Str(url))
                 && rows' == rows[url := Row(k, AsStr(Get2(content, "info", "mimetype")), GetStr(content, "body"))]
  {
  }

  /** The thumbnail's file likewise, inside `info`. */
  lemma ThumbnailHarvested(rows: map<string, Row>, content: Json, writable: bool, key: string)
    requires content.Obj?
    ensures var (rows', got) := HarvestThumbnail(rows, content, writable);
            && got.Obj? && (key != "info" ==> Get(got, key) == Get(content, key))
            && (key != "thumbnail_file" && key != "thumbnail_url" ==>
                  Get2(got, "info", key) == Get2(content, "info", key))
            && match Harvestable(Get2(content, "info", "thumbnail_file"), writable)
               case None => rows' == rows && got == content
               case Some((url, k)) =>
                 && Get2(got, "info", "thumbnail_file").None? && Get2(got, "info", "thumbnail_url") == Some(Str(url))
                 && rows'
                    == rows[url := Row(k, AsStr(Get2(Slot(content, "info"), "thumbnail_info", "mimetype")), None)]
  {
  }

  /** Harvesting treats the main file first and then the thumbnail's, of an event whose
      content is an object; any other event is left alone. */
  lemma EventHarvested(rows: map<string, Row>, event: Json, writable: bool)
    ensures var (rows', got) := HarvestEvent(rows, event, writable);
            if event.Obj? && Slot(event, "content").Obj? then
              var (rows1, content1) := HarvestMain(rows, Slot(event, "content"), writable);
              var (rows2, content2) := HarvestThumbnail(rows1, content1, writable);
              rows' == rows2 && Get(got, "content") == Some(content2)
            else rows' == rows && got == event
  {
  }

  // ----- The cache

  datatype Download =
    | Relayed(bytes: Bytes)
    | Decrypted(bytes: Bytes, contentType: string, filename: Option<string>)
    | Error

  function Mxc(server: string, mediaId: string): string {
    "mxc://" + server + "/" + mediaId
  }

  class MediaKeyCache {
    var rows: map<string, Row>

    constructor ()
      ensures rows == map[]
    {
      rows := map[];
    }

    method Insert(mxc: string, key: FileKey, mimetype: Option<string>, filename: Option<string>)
      modifies this
      ensures rows == old(rows)[mxc := Row(key, mimetype, filename)]
    {
      rows := rows[mxc := Row(key, mimetype, filename)];
    }

    /** `mxc` is the URI the homeserver gave the upload, if it took it; the ciphertext is
        what it was given to store. The client gets the homeserver's answer only if the key
        could be cached. */
    method HandleUpload(data: Bytes, encrypt: Bytes -> (Bytes, FileKey), mxc: Option<string>,
                        contentType: Option<string>, filename: Option<string>, writable: bool)
      returns (stored: Bytes, answered: bool)
      modifies this
      ensures stored == encrypt(data).0
      ensures answered <==> mxc.None? || writable
      ensures rows == if mxc.Some? && writable
                      then old(rows)[mxc.value := Row(encrypt(data).1, contentType, filename)]
                      else old(rows)
    {
      var (encrypted, key) := encrypt(data);
      if mxc.Some? {
        if !writable {
          return encrypted, false;
        }
        Insert(mxc.value, key, contentType, filename);
      }
      return encrypted, true;
    }

    /** `answer` is what the homeserver stores under the URI, if it still does. */
    method HandleDownload(server: string, mediaId: string, answer: Option<Bytes>, failure: Bytes,
                          decrypt: (Bytes, FileKey) -> Option<Bytes>)
      returns (download: Download)
      ensures answer.None? ==> download == Relayed(failure)
      ensures answer.Some? ==> download == Downloaded(rows, server, mediaId, answer.value, decrypt)
      // The same by the URI's row and what it decrypts to.
      ensures var mxc := "mxc://" + server + "/" + mediaId;
              answer.Some? ==>
                if mxc !in rows then download == Relayed(answer.value)
                else
                  match decrypt(answer.value, rows[mxc].key)
                  case None => download == Error
                  case Some(plain) =>
                    && download.Decrypted? && download.bytes == plain && download.filename == rows[mxc].filename
                    && (rows[mxc].mimetype.Some? ==> download.contentType == rows[mxc].mimetype.value)
                    && (rows[mxc].mimetype.None? ==> download.contentType == "application/octet-stream")
    {
      var mxc := Mxc(server, mediaId);
      if answer.None? {
        return Relayed(failure);
      }
      if mxc !in rows {
        return Relayed(answer.value);
      }
      var plain := decrypt(answer.value, rows[mxc].key);
      if plain.None? {
        return Error;
      }
      var contentType := if rows[mxc].mimetype.Some? then rows[mxc].mimetype.value else "application/octet-stream";
      return Decrypted(plain.value, contentType, rows[mxc].filename);
    }

    method HarvestAndRewrite(event: Json, writable: bool) returns (event': Json)
      modifies this
      ensures (rows, event') == HarvestEvent(old(rows), event, writable)
    {
      if !event.Obj? || !Slot(event, "content").Obj? {
        return event;
      }
      var content := Slot(event, "content");
      var filename := GetStr(content, "body");
      var mimetype := AsStr(Get2(content, "info", "mimetype"));
      if Get(content, "file").Some? {
        var url := Harvest(Get(content, "file").value, mimetype, filename, writable);
        if url.Some? {
          content := Put(Drop(content, "file"), "url", Str(url.value));
        }
      }
      var info := Slot(content, "info");
      if info.Obj? && "thumbnail_file" in info.fields {
        var thumbMime := AsStr(Get2(info, "thumbnail_info", "mimetype"));
        var url := Harvest(info.fields["thumbnail_file"], thumbMime, None, writable);
        if url.Some? {
          content := Put(content, "info", Put(Drop(info, "thumbnail_file"), "thumbnail_url", Str(url.value)));
        }
      }
      return Put(event, "content", content);
    }

    method Harvest(file: Json, mimetype: Option<string>, filename: Option<string>, writable: bool)
      returns (url: Option<string>)
      modifies this
      ensures (rows, url) == HarvestFile(old(rows), file, mimetype, filename, writable)
    {
      var parsed := ParseFile(file);
      if parsed.None? || !writable {
        return None;
      }
      Insert(parsed.value.0, parsed.value.1, mimetype, filename);
      return Some(parsed.value.0);
    }
  }

  function Downloaded(rows: map<string, Row>, server: string, mediaId: string, stored: Bytes,
                      decrypt: (Bytes, FileKey) -> Option<Bytes>): Download {
    var mxc := Mxc(server, mediaId);
    if mxc !in rows then Relayed(stored)
    else
      match decrypt(stored, rows[mxc].key)
      case None => Error
      case Some(plain) =>
        Decrypted(plain,
                  if rows[mxc].mimetype.Some? then rows[mxc].mimetype.value else "application/octet-stream",
                  rows[mxc].filename)
  }

  /** Caching a key decides the downloads of its URI, whatever was cached for it before,
      and no others. */
  lemma CachedKeyDecrypts(rows: map<string, Row>, row: Row, mxc: string, server: string, mediaId: string,
                          stored: Bytes, decrypt: (Bytes, FileKey) -> Option<Bytes>)
    ensures var download := Downloaded(rows[mxc := row], server, mediaId, stored, decrypt);
            if Mxc(server, mediaId) != mxc then download == Downloaded(rows, server, mediaId, stored, decrypt)
            else
              && !download.Relayed?
              && (download.Error? <==> decrypt(stored, row.key).None?)
              && (download.Decrypted? && row.mimetype.Some? ==> download.contentType == row.mimetype.value)
              && (download.Decrypted? ==>
                    Some(download.bytes) == decrypt(stored, row.key) && download.filename == row.filename)
  {
  }

  // ----- Round trips

  /** A message with an uploaded attachment that has no file or thumbnail file yet. */
  predicate AttachmentMessage(rows: map<string, Row>, content: Json, mxc: string) {
    && content.Obj? && GetStr(content, "url") == Some(mxc) && mxc in rows
    && Get(content, "file").None?
    && (Get(content, "info").None? || Slot(content, "info").Obj?)
    && Get2(content, "info", "thumbnail_file").None?
  }

  /** On the wire the message carries the upload's key in `file` and no bare url. */
  lemma SentCarriesKey(rows: map<string, Row>, content: Json, mxc: string, key: string)
    requires AttachmentMessage(rows, content, mxc)
    ensures var sent := ForEncryptedRoom(rows, content);
            && sent.Obj?
            && Get(sent, "url").None?
            && Get(sent, "file") == Some(KeyJson(rows[mxc].key, mxc))
            && (key != "url" && key != "file" && key != "info" ==> Get(sent, key) == Get(content, key))
            && (Get(sent, "info").None? || Slot(sent, "info").Obj?)
            && (key != "mimetype" ==> Get2(sent, "info", key) == Get2(content, "info", key))
            && Get2(sent, "info", "mimetype")
               == if Get2(content, "info", "mimetype").Some? then Get2(content, "info", "mimetype")
                  else if rows[mxc].mimetype.Some? then Some(Str(rows[mxc].mimetype.value)) else None
  {
  }

  /** What has no url, or one whose upload is not cached, is sent as it is; and an `info` that
      is no object stays. */
  lemma SentAsIs(rows: map<string, Row>, content: Json)
    ensures GetStr(content, "url").None? || GetStr(content, "url").value !in rows ==>
              ForEncryptedRoom(rows, content) == content
    ensures Get(content, "info").Some? && !Get(content, "info").value.Obj? ==>
              Get(ForEncryptedRoom(rows, content), "info") == Get(content, "info")
  {
  }

  lemma ParsesBack(k: FileKey, url: string)
    ensures ParseFile(KeyJson(k, url)) == Some((url, k))
  {
  }

  /** Rewriting for the encrypted room and harvesting at the recipient gives the message
      back, up to a filled-in info.mimetype, and the recipient's cache then holds the
      sender's key for the attachment and is otherwise unchanged. */
  lemma MediaRoundTrip(sender: map<string, Row>, recipient: map<string, Row>, content: Json, mxc: string, key: string)
    requires AttachmentMessage(sender, content, mxc)
    ensures var (rows, got) := HarvestContent(recipient, ForEncryptedRoom(sender, content), true);
            && got.Obj?
            && mxc in rows && rows[mxc].key == sender[mxc].key
            && rows - {mxc} == recipient - {mxc}
            && rows[mxc].filename == GetStr(content, "body")
            && rows[mxc].mimetype == AsStr(Get2(got, "info", "mimetype"))
            && (key != "info" ==> Get(got, key) == Get(content, key))
            && (key != "mimetype" ==> Get2(got, "info", key) == Get2(content, "info", key))
            && Get2(got, "info", "mimetype")
               == if Get2(content, "info", "mimetype").Some? then Get2(content, "info", "mimetype")
                  else if sender[mxc].mimetype.Some? then Some(Str(sender[mxc].mimetype.value)) else None
  {
    var sent := ForEncryptedRoom(sender, content);
    SentCarriesKey(sender, content, mxc, key);
    SentCarriesKey(sender, content, mxc, "body");
    SentCarriesKey(sender, content, mxc, "thumbnail_file");
    ParsesBack(sender[mxc].key, mxc);
    var (rows, got) := HarvestMain(recipient, sent, true);
    assert got == Put(Drop(sent, "file"), "url", Str(mxc));
    assert Get(got, "info") == Get(sent, "info");
    assert HarvestContent(recipient, sent, true) == (rows, got);
  }

  /** With a cipher that decrypts what it encrypted, the recipient of a message with an
      uploaded attachment downloads the uploaded bytes. */
  lemma UploadedBytesComeBack(sender: map<string, Row>, recipient: map<string, Row>, content: Json,
                              server: string, mediaId: string, data: Bytes,
                              contentType: Option<string>, filename: Option<string>,
                              encrypt: Bytes -> (Bytes, FileKey), decrypt: (Bytes, FileKey) -> Option<Bytes>)
    requires forall d :: decrypt(encrypt(d).0, encrypt(d).1) == Some(d)
    requires var mxc := Mxc(server, mediaId);
             AttachmentMessage(sender[mxc := Row(encrypt(data).1, contentType, filename)], content, mxc)
    ensures var mxc := Mxc(server, mediaId);
            var uploaded := sender[mxc := Row(encrypt(data).1, contentType, filename)];
            var rows := HarvestContent(recipient, ForEncryptedRoom(uploaded, content), true).0;
            var download := Downloaded(rows, server, mediaId, encrypt(data).0, decrypt);
            download.Decrypted? && download.bytes == data && download.filename == GetStr(content, "body")
  {
    var mxc := Mxc(server, mediaId);
    MediaRoundTrip(sender[mxc := Row(encrypt(data).1, contentType, filename)], recipient, content, mxc, "");
  }
}
