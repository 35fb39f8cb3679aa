/** Choosing the device of a login among the store directories, and finding it again. */
module Login {
  import opened Seqs
  import opened Json

  // ----- Names in paths

  predicate AsciiAlnum(c: char) {
    '0' <= c <= '9' || 'a' <= c <= 'z' || 'A' <= c <= 'Z'
  }

  function SanitizeChar(c: char): char {
    if AsciiAlnum(c) || c in {'.', '-', '_', '@', ':', '=', '+'} then c else '_'
  }

  function Sanitize(id: string): string {
    seq(|id|, i requires 0 <= i < |id| => SanitizeChar(id[i]))
  }

  function LowerChar(c: char): char {
    if 'A' <= c <= 'Z' then (c as int + 32) as char else c
  }

  function Lower(s: string): string {
    seq(|s|, i requires 0 <= i < |s| => LowerChar(s[i]))
  }

  /** The part before the first colon, if there is one. */
  function LocalPart(name: string): Option<string> {
    if name == [] then None
    else if name[0] == ':' then Some("")
    else
      match LocalPart(name[1..])
      case None => None
      case Some(rest) => Some([name[0]] + rest)
  }

  function StripAt(s: string): string {
    if s != [] && s[0] == '@' then s[1..] else s
  }

  /** Does a directory's name match a typed name, up to case and sanitizing: as a whole if
      the typed name has a colon, else in the part before its own colon? */
  predicate NamesUser(dir: string, login: string) {
    && dir != [] && dir[0] == '@'
    && var name := Lower(dir[1..]);
       var wanted := Lower(Sanitize(StripAt(login)));
       if ':' in wanted then name == wanted else LocalPart(name) == Some(wanted)
  }

  lemma LowerSanitizeColon(s: string)
    ensures ':' in Lower(Sanitize(s)) <==> ':' in s
  {
    if ':' in s {
      var i :| 0 <= i < |s| && s[i] == ':';
      assert Lower(Sanitize(s))[i] == ':';
    }
  }

  lemma {:induction false} LocalPartOf(local: string, rest: string)
    requires ':' !in local
    ensures LocalPart(local + ":" + rest) == Some(local)
    decreases |local|
  {
    if local == [] {
      assert local + ":" + rest == ":" + rest;
    } else {
      var full := local + ":" + rest;
      assert local[0] in local && forall c :: c in local[1..] ==> c in local;
      LocalPartOf(local[1..], rest);
      assert full[0] == local[0] && full[1..] == local[1..] + ":" + rest;
      assert [local[0]] + local[1..] == local;
    }
  }

  /** A user's directory is found under the full ID and under its local part, typed in
      any case, with or without the @. */
  lemma OwnDirectoryIsNamed(local: string, server: string, typed: string)
    requires ':' !in local
    requires Lower(typed) == Lower("@" + local + ":" + server) || Lower(typed) == Lower("@" + local)
             || (Lower(typed) == Lower(local) && (local == [] || local[0] != '@'))
    ensures NamesUser(Sanitize("@" + local + ":" + server), typed)
  {
    var dir := Sanitize("@" + local + ":" + server);
    var wanted, ll, ls := Lower(Sanitize(StripAt(typed))), Lower(Sanitize(local)), Lower(Sanitize(server));
    LowerSanitizeColon(local);
    assert Lower(dir[1..]) == ll + ":" + ls;
    LocalPartOf(ll, ls);
    TypedIs(typed, Lower(typed));
    if Lower(typed) == Lower("@" + local + ":" + server) {
      TypedIs("@" + local + ":" + server, Lower(typed));
      assert StripAt("@" + local + ":" + server) == local + ":" + server;
      assert wanted == ll + ":" + ls;
      assert wanted[|ll|] == ':';
    } else if Lower(typed) == Lower("@" + local) {
      TypedIs("@" + local, Lower(typed));
      assert StripAt("@" + local) == local;
    } else {
      TypedIs(local, Lower(typed));
    }
  }

  /** What a login name comes to depends on its lower-case form alone. */
  lemma TypedIs(typed: string, lowered: string)
    requires lowered == Lower(typed)
    ensures Lower(Sanitize(StripAt(typed))) == Lower(Sanitize(StripAt(lowered)))
  {
    assert |typed| > 0 ==> (typed[0] == '@' <==> lowered[0] == '@');
    var a, b := StripAt(typed), StripAt(lowered);
    assert b == Lower(a);
    assert forall i :: 0 <= i < |a| ==>
      LowerChar(SanitizeChar(a[i])) == LowerChar(SanitizeChar(LowerChar(a[i])));
  }

  /** A full user ID names its own directory only, up to case and sanitizing. */
  lemma FullIdNamesOnlyItself(dir: string, id: string)
    requires id != [] && id[0] == '@' && ':' in id
    ensures NamesUser(dir, id) <==> dir != [] && dir[0] == '@' && Lower(dir) == Lower(Sanitize(id))
  {
    LowerSanitizeColon(id[1..]);
    assert ':' in id[1..] by {
      var i :| 0 <= i < |id| && id[i] == ':';
      assert id[1..][i - 1] == ':';
    }
    assert Lower(Sanitize(id)) == "@" + Lower(Sanitize(id[1..]));
    if dir != [] && dir[0] == '@' {
      assert Lower(dir) == "@" + Lower(dir[1..]);
      assert Lower(dir)[1..] == Lower(dir[1..]) && Lower(Sanitize(id))[1..] == Lower(Sanitize(id[1..]));
    }
  }

  /** Sanitizing keeps letters, digits and a few marks in place, and makes an underscore of
      anything else, slashes above all. */
  lemma SanitizedIs(id: string, i: nat)
    requires i < |id|
    ensures |Sanitize(id)| == |id| && Sanitize(id)[i] != '/' && Sanitize(id)[i] != '\\'
    ensures var c := id[i];
            var kept := 'a' <= c <= 'z' || 'A' <= c <= 'Z' || '0' <= c <= '9'
                        || c == '.' || c == '-' || c == '_' || c == '@' || c == ':' || c == '=' || c == '+';
            Sanitize(id)[i] == if kept then c else '_'
  {
  }

  /** Lower case: two characters agree in it exactly if they are the same, or the same letter
      in both cases. */
  lemma SameInLowerCase(c: char, d: char)
    ensures LowerChar(c) == LowerChar(d)
            <==> c == d || ('A' <= c <= 'Z' && d as int == c as int + 32)
                 || ('A' <= d <= 'Z' && c as int == d as int + 32)
  {
  }

  lemma {:induction false} LocalPartIs(name: string)
    ensures match LocalPart(name)
            case None => ':' !in name
            case Some(w) => |w| < |name| && name[..|w|] == w && name[|w|] == ':' && ':' !in w
  {
    if name == [] || name[0] == ':' {
    } else {
      LocalPartIs(name[1..]);
      assert name == [name[0]] + name[1..];
    }
  }

  lemma {:induction false} LocalPartLower(name: string)
    ensures LocalPart(Lower(name))
            == match LocalPart(name) case None => None case Some(w) => Some(Lower(w))
  {
    if name == [] || name[0] == ':' {
      assert name != [] ==> Lower(name)[0] == ':';
      assert Lower("") == "";
    } else {
      LocalPartLower(name[1..]);
      assert Lower(name)[0] != ':' && Lower(name)[1..] == Lower(name[1..]);
      var w := LocalPart(name[1..]);
      assert w.Some? ==> Lower([name[0]] + w.value) == [LowerChar(name[0])] + Lower(w.value);
    }
  }

  /** The local part of a user's directory ends before this place. */
  predicate EndsLocalPart(dir: string, k: nat) {
    k < |dir| && 0 < k && dir[k] == ':' && ':' !in dir[1..k]
  }

  /** A name without a colon names exactly the directories with this local part, up to case
      and sanitizing. */
  lemma LocalNameNamesItsLocalPart(dir: string, typed: string)
    requires ':' !in typed
    ensures NamesUser(dir, typed)
            <==> && dir != [] && dir[0] == '@'
                 && exists k: nat :: EndsLocalPart(dir, k) && Lower(dir[1..k]) == Lower(Sanitize(StripAt(typed)))
  {
    LowerSanitizeColon(StripAt(typed));
    assert forall c :: c in StripAt(typed) ==> c in typed;
    if dir != [] && dir[0] == '@' {
      var name := dir[1..];
      LocalPartLower(name);
      LocalPartIs(name);
      if LocalPart(name).Some? {
        var k := |LocalPart(name).value|;
        assert name[k] == dir[1 + k] && name[..k] == dir[1..1 + k];
        assert EndsLocalPart(dir, k + 1);
      }
      forall k: nat | EndsLocalPart(dir, k)
        ensures LocalPart(name) == Some(dir[1..k])
      {
        LocalPartOf(dir[1..k], dir[k + 1..]);
        assert name == dir[1..k] + ":" + dir[k + 1..];
      }
    }
  }

  // ----- The store directories

  datatype LoginRecord = LoginRecord(device: string, requested: string)

  /** A device's directory: whether there is a store in it, when it was last used, and
      what login.json records. */
  datatype DeviceDir = DeviceDir(name: string, hasStore: bool, used: nat, record: Option<LoginRecord>)

  datatype UserDir = UserDir(name: string, devices: seq<DeviceDir>)

  predicate HasStore(dir: UserDir, name: string) {
    exists d :: d in dir.devices && d.name == name && d.hasStore
  }

  /** A store that was made for a login asking for `requested`. */
  predicate Answers(d: DeviceDir, requested: string) {
    d.hasStore && d.record.Some? && d.record.value.requested == requested
  }

  ghost predicate Continues(dirs: seq<UserDir>, user: string, requested: string, d: DeviceDir) {
    exists u :: u in dirs && NamesUser(u.name, user) && d in u.devices && Answers(d, requested)
  }

  ghost predicate UnderOwnName(dirs: seq<UserDir>, user: string, requested: string) {
    exists u, d :: u in dirs && NamesUser(u.name, user) && d in u.devices
                   && d.name == Sanitize(requested) && d.hasStore
  }

  /** The answer that is wanted: the requested ID itself if it has a store, else the
      device of a matching store used no earlier than any other, if there is one. */
  ghost predicate IsDeviceFor(dirs: seq<UserDir>, user: string, requested: string, device: Option<string>) {
    if UnderOwnName(dirs, user, requested) then device == Some(requested)
    else
      match device
      case None => forall d :: !Continues(dirs, user, requested, d)
      case Some(id) =>
        exists d :: Continues(dirs, user, requested, d) && d.record.value.device == id
                    && forall e :: Continues(dirs, user, requested, e) ==> e.used <= d.used
  }

  /** The newest so far, as the scan keeps it: of those seen, with its device. */
  ghost predicate IsNewest(newest: Option<(nat, string)>, seen: set<DeviceDir>, requested: string) {
    match newest
    case None => forall d :: d in seen ==> !Answers(d, requested)
    case Some((used, id)) =>
      && (exists d :: d in seen && Answers(d, requested) && d.used == used && d.record.value.device == id)
      && (forall d :: d in seen && Answers(d, requested) ==> d.used <= used)
  }

  method ScanDevices(devices: seq<DeviceDir>, requested: string, before: Option<(nat, string)>,
                     ghost seen: set<DeviceDir>)
    returns (newest: Option<(nat, string)>)
    requires IsNewest(before, seen, requested)
    ensures IsNewest(newest, seen + Elems(devices), requested)
  {
    newest := before;
    for i := 0 to |devices|
      invariant IsNewest(newest, seen + Elems(devices[..i]), requested)
    {
      ghost var was := seen + Elems(devices[..i]);
      var dir := devices[i];
      ElemsConcat(devices[..i], [dir]);
      assert devices[..i + 1] == devices[..i] + [dir] && Elems([dir]) == {dir};
      assert seen + Elems(devices[..i + 1]) == was + {dir};
      if !dir.hasStore || dir.record.None? || dir.record.value.requested != requested {
        continue;
      }
      assert dir in was + {dir} && Answers(dir, requested);
      if newest.None? || dir.used > newest.value.0 {
        newest := Some((dir.used, dir.record.value.device));
      }
    }
    assert devices[..|devices|] == devices;
  }

  lemma StoreIsThere(dirs: seq<UserDir>, u: UserDir, user: string, requested: string)
    requires u in dirs && NamesUser(u.name, user) && HasStore(u, Sanitize(requested))
    ensures UnderOwnName(dirs, user, requested)
  {
    var d :| d in u.devices && d.name == Sanitize(requested) && d.hasStore;
  }

  method DeviceIdForLogin(dirs: seq<UserDir>, user: string, requested: string) returns (device: Option<string>)
    ensures IsDeviceFor(dirs, user, requested, device)
  {
    var newest: Option<(nat, string)> := None;
    ghost var seen: set<DeviceDir> := {};
    for i := 0 to |dirs|
      invariant seen == set u, d | u in dirs[..i] && NamesUser(u.name, user) && d in u.devices :: d
      invariant forall u :: u in dirs[..i] && NamesUser(u.name, user) ==> !HasStore(u, Sanitize(requested))
      invariant IsNewest(newest, seen, requested)
    {
      var dir := dirs[i];
      assert forall u :: u in dirs[..i + 1] <==> u in dirs[..i] || u == dir;
      if !NamesUser(dir.name, user) {
        continue;
      }
      // UnderOwnName: the other directories no longer matter.
      if HasStore(dir, Sanitize(requested)) {
        StoreIsThere(dirs, dir, user, requested);
        return Some(requested);
      }
      newest := ScanDevices(dir.devices, requested, newest, seen);
      seen := seen + Elems(dir.devices);
    }
    assert dirs[..|dirs|] == dirs;
    assert forall d :: Continues(dirs, user, requested, d) <==> d in seen && Answers(d, requested);
    device := if newest.None? then None else Some(newest.value.1);
  }

  /** Of two listings with the same directories, in whatever order, the scan makes the
      same of them if no two matching stores were last used at the same time. */
  lemma OrderDoesNotMatter(dirs1: seq<UserDir>, dirs2: seq<UserDir>, user: string, requested: string,
                           device1: Option<string>, device2: Option<string>)
    requires forall u: UserDir :: NamesUser(u.name, user) ==>
               (HasSame(dirs1, u) <==> HasSame(dirs2, u))
    requires forall d, e ::
               (Continues(dirs1, user, requested, d) && Continues(dirs1, user, requested, e) && d.used == e.used)
               ==> d == e
    requires IsDeviceFor(dirs1, user, requested, device1) && IsDeviceFor(dirs2, user, requested, device2)
    ensures device1 == device2
  {
    SameListing(dirs1, dirs2, user, requested);
    SameListing(dirs2, dirs1, user, requested);
    if !UnderOwnName(dirs1, user, requested) && device1.Some? && device2.Some? {
      var d :| Continues(dirs1, user, requested, d) && d.record.value.device == device1.value
               && forall e :: Continues(dirs1, user, requested, e) ==> e.used <= d.used;
      var e :| Continues(dirs2, user, requested, e) && e.record.value.device == device2.value
               && forall f :: Continues(dirs2, user, requested, f) ==> f.used <= e.used;
      assert Continues(dirs1, user, requested, e) && Continues(dirs2, user, requested, d);
    }
  }

  /** A directory of the listing with the same name and, in some order, the same devices. */
  ghost predicate HasSame(dirs: seq<UserDir>, u: UserDir) {
    exists v :: v in dirs && v.name == u.name && Elems(v.devices) == Elems(u.devices)
  }

  lemma SameListing(dirs1: seq<UserDir>, dirs2: seq<UserDir>, user: string, requested: string)
    requires forall u: UserDir :: NamesUser(u.name, user) ==>
               (HasSame(dirs1, u) <==> HasSame(dirs2, u))
    ensures UnderOwnName(dirs1, user, requested) ==> UnderOwnName(dirs2, user, requested)
    ensures forall d :: Continues(dirs1, user, requested, d) ==> Continues(dirs2, user, requested, d)
  {
    forall u | u in dirs1 && NamesUser(u.name, user)
      ensures exists v :: v in dirs2 && v.name == u.name && Elems(v.devices) == Elems(u.devices)
    {
      assert HasSame(dirs1, u);
      assert HasSame(dirs2, u);
    }
    if UnderOwnName(dirs1, user, requested) {
      var u, d :| u in dirs1 && NamesUser(u.name, user) && d in u.devices
                  && d.name == Sanitize(requested) && d.hasStore;
      var v :| v in dirs2 && v.name == u.name && Elems(v.devices) == Elems(u.devices);
      assert d in Elems(u.devices) && d in Elems(v.devices);
    }
    forall d | Continues(dirs1, user, requested, d)
      ensures Continues(dirs2, user, requested, d)
    {
      var u :| u in dirs1 && NamesUser(u.name, user) && d in u.devices && Answers(d, requested);
      var v :| v in dirs2 && v.name == u.name && Elems(v.devices) == Elems(u.devices);
      assert d in Elems(u.devices) && d in Elems(v.devices);
    }
  }

  // ----- The login request

  datatype LoginPlan = LoginPlan(body: Option<Json>, requested: Option<string>)

  /** The user a login names, in either of the two places. */
  function LoginUser(login: Json): Option<string> {
    match Get2(login, "identifier", "user")
    case Some(user) => AsStr(Some(user))
    case None => GetStr(login, "user")
  }

  /** `login` is the request's body if it is JSON. */
  method PlanLogin(dirs: seq<UserDir>, login: Option<Json>) returns (plan: LoginPlan, ghost found: Option<string>)
    ensures login.None? ==> plan == LoginPlan(None, None)
    ensures login.Some? ==>
              var requested := Get(login.value, "device_id");
              var user := if Get2(login.value, "identifier", "user").Some?
                          then Get2(login.value, "identifier", "user") else Get(login.value, "user");
              if requested.None? || !requested.value.Str? || user.None? || !user.value.Str? then
                plan == LoginPlan(None, None)
              else
                && plan.requested == Some(requested.value.s)
                && IsDeviceFor(dirs, user.value.s, requested.value.s, found)
                && (if found == Some(requested.value.s) then plan.body.None?
                    else
                      && plan.body.Some?
                      && Get(plan.body.value, "device_id") == (if found.Some? then Some(Str(found.value)) else None)
                      && forall key :: key != "device_id" ==> Get(plan.body.value, key) == Get(login.value, key))
  {
    found := None;
    if login.None? || GetStr(login.value, "device_id").None? || LoginUser(login.value).None? {
      return LoginPlan(None, None), None;
    }
    var requested := GetStr(login.value, "device_id").value;
    var device := DeviceIdForLogin(dirs, LoginUser(login.value).value, requested);
    found := device;
    if device == Some(requested) {
      return LoginPlan(None, Some(requested)), found;
    }
    // The chosen device replaces the requested one, or the request goes without any.
    var body := if device.Some? then Put(login.value, "device_id", Str(device.value))
                else Drop(login.value, "device_id");
    return LoginPlan(Some(body), Some(requested)), found;
  }

  // ----- Continuity

  /** Write the device's record, in its directory, which may have to be made first. */
  function RecordIn(devices: seq<DeviceDir>, device: string, record: LoginRecord): seq<DeviceDir> {
    if devices == [] then [DeviceDir(Sanitize(device), false, 0, Some(record))]
    else if devices[0].name == Sanitize(device) then [devices[0].(record := Some(record))] + devices[1..]
    else [devices[0]] + RecordIn(devices[1..], device, record)
  }

  function RecordLogin(dirs: seq<UserDir>, user: string, device: string, requested: string): seq<UserDir> {
    if dirs == [] then [UserDir(Sanitize(user), RecordIn([], device, LoginRecord(device, requested)))]
    else if dirs[0].name == Sanitize(user) then
      [dirs[0].(devices := RecordIn(dirs[0].devices, device, LoginRecord(device, requested)))] + dirs[1..]
    else [dirs[0]] + RecordLogin(dirs[1..], user, device, requested)
  }

  /** After a successful login: note the device, where it is not the one asked for. */
  function NoteDevice(dirs: seq<UserDir>, user: string, device: string, requested: string): seq<UserDir> {
    if device == requested then dirs else RecordLogin(dirs, user, device, requested)
  }

  lemma {:induction false} RecordedDevice(devices: seq<DeviceDir>, device: string, record: LoginRecord)
    ensures exists d :: d in RecordIn(devices, device, record) && d.name == Sanitize(device) && d.record == Some(record)
    ensures forall d :: d in RecordIn(devices, device, record) ==>
              d in devices || (d.name == Sanitize(device) && d.record == Some(record))
    ensures forall d :: d in devices && d.name != Sanitize(device) ==> d in RecordIn(devices, device, record)
    decreases |devices|
  {
    var rest := RecordIn(devices, device, record);
    if devices == [] {
      assert rest[0].name == Sanitize(device) && rest[0].record == Some(record);
    } else if devices[0].name == Sanitize(device) {
      assert rest[0].name == Sanitize(device) && rest[0].record == Some(record) && rest[0] in rest;
      assert forall d :: d in devices ==> d == devices[0] || d in devices[1..];
    } else {
      RecordedDevice(devices[1..], device, record);
      assert rest == [devices[0]] + RecordIn(devices[1..], device, record);
      assert forall d :: d in devices ==> d == devices[0] || d in devices[1..];
    }
  }

  /** Recording a login leaves its record in the user's directory for the device. */
  lemma {:induction false} RecordedLogin(dirs: seq<UserDir>, user: string, device: string, requested: string)
    ensures exists u, d :: u in RecordLogin(dirs, user, device, requested) && u.name == Sanitize(user)
              && d in u.devices && d.name == Sanitize(device) && d.record == Some(LoginRecord(device, requested))
    decreases |dirs|
  {
    var all, record := RecordLogin(dirs, user, device, requested), LoginRecord(device, requested);
    if dirs == [] {
      RecordedDevice([], device, record);
      assert all[0] in all;
    } else if dirs[0].name == Sanitize(user) {
      RecordedDevice(dirs[0].devices, device, record);
      assert all[0] in all;
    } else {
      RecordedLogin(dirs[1..], user, device, requested);
      assert all == [dirs[0]] + RecordLogin(dirs[1..], user, device, requested);
    }
  }

  /** It leaves every other user's directory, and every other device's, as it was. */
  lemma {:induction false} RecordTouchesOnlyItsOwn(dirs: seq<UserDir>, user: string, device: string, requested: string,
                                                   u: UserDir, d: DeviceDir)
    requires u in dirs && d in u.devices
    ensures u.name != Sanitize(user) ==> u in RecordLogin(dirs, user, device, requested)
    ensures d.name != Sanitize(device) ==>
              exists v :: v in RecordLogin(dirs, user, device, requested) && v.name == u.name && d in v.devices
    decreases |dirs|
  {
    var all, record := RecordLogin(dirs, user, device, requested), LoginRecord(device, requested);
    if dirs[0].name == Sanitize(user) {
      assert all == [dirs[0].(devices := RecordIn(dirs[0].devices, device, record))] + dirs[1..];
      RecordedDevice(dirs[0].devices, device, record);
      if u == dirs[0] {
        assert all[0] in all;
      } else {
        assert u in dirs[1..] && u in all;
      }
    } else {
      assert all == [dirs[0]] + RecordLogin(dirs[1..], user, device, requested);
      if u == dirs[0] {
        assert u in all;
      } else {
        RecordTouchesOnlyItsOwn(dirs[1..], user, device, requested, u, d);
      }
    }
  }

  /** A record whose store exists and was used last decides what a request like the recorded
      one comes to, unless the requested ID has a store of its own. */
  lemma RecordedLoginIsFoundAgain(dirs: seq<UserDir>, u: UserDir, d: DeviceDir, user: string, device: string,
                                  requested: string, found: Option<string>)
    requires u in dirs && NamesUser(u.name, user) && d in u.devices && d.hasStore
    requires d.record == Some(LoginRecord(device, requested))
    requires forall e :: Continues(dirs, user, requested, e) && e != d ==>
               e.used < d.used || e.record.value.device == device
    requires IsDeviceFor(dirs, user, requested, found)
    ensures found == if UnderOwnName(dirs, user, requested) then Some(requested) else Some(device)
  {
    assert Continues(dirs, user, requested, d);
  }

  // ----- From one login to the next

  /** Open the device's store, now, making it and its directories where they are missing. */
  function OpenIn(devices: seq<DeviceDir>, device: string, now: nat): seq<DeviceDir> {
    if devices == [] then [DeviceDir(Sanitize(device), true, now, None)]
    else if devices[0].name == Sanitize(device) then [devices[0].(hasStore := true, used := now)] + devices[1..]
    else [devices[0]] + OpenIn(devices[1..], device, now)
  }

  function OpenStore(dirs: seq<UserDir>, user: string, device: string, now: nat): seq<UserDir> {
    if dirs == [] then [UserDir(Sanitize(user), OpenIn([], device, now))]
    else if dirs[0].name == Sanitize(user) then
      [dirs[0].(devices := OpenIn(dirs[0].devices, device, now))] + dirs[1..]
    else [dirs[0]] + OpenStore(dirs[1..], user, device, now)
  }

  predicate IsRecorded(d: DeviceDir, device: string, requested: string, now: nat) {
    d.hasStore && d.used == now && d.record == Some(LoginRecord(device, requested))
  }

  lemma {:induction false} OpenedDevice(devices: seq<DeviceDir>, device: string, requested: string, now: nat)
    ensures var made := OpenIn(RecordIn(devices, device, LoginRecord(device, requested)), device, now);
            && (exists d :: d in made && IsRecorded(d, device, requested, now))
            && (forall d :: d in made ==> d in devices || IsRecorded(d, device, requested, now))
    decreases |devices|
  {
    var recorded := RecordIn(devices, device, LoginRecord(device, requested));
    var made := OpenIn(recorded, device, now);
    if devices == [] || devices[0].name == Sanitize(device) {
      assert IsRecorded(made[0], device, requested, now);
      assert made == [made[0]] + recorded[1..];
      assert devices != [] ==> recorded[1..] == devices[1..];
    } else {
      OpenedDevice(devices[1..], device, requested, now);
      var rest := RecordIn(devices[1..], device, LoginRecord(device, requested));
      assert recorded == [devices[0]] + rest && recorded[1..] == rest;
      assert made == [devices[0]] + OpenIn(rest, device, now);
    }
  }

  lemma {:induction false} OpenedLogin(dirs: seq<UserDir>, user: string, device: string, requested: string, now: nat)
    ensures var made := OpenStore(RecordLogin(dirs, user, device, requested), user, device, now);
            && (exists u, d :: u in made && u.name == Sanitize(user) && d in u.devices
                               && IsRecorded(d, device, requested, now))
            && (forall u, d :: u in made && d in u.devices ==>
                  (exists v :: v in dirs && d in v.devices) || IsRecorded(d, device, requested, now))
    decreases |dirs|
  {
    var recorded := RecordLogin(dirs, user, device, requested);
    var made := OpenStore(recorded, user, device, now);
    if dirs == [] || dirs[0].name == Sanitize(user) {
      var devices := if dirs == [] then [] else dirs[0].devices;
      OpenedDevice(devices, device, requested, now);
      assert made[0].name == Sanitize(user)
             && made[0].devices == OpenIn(RecordIn(devices, device, LoginRecord(device, requested)), device, now);
      assert made == [made[0]] + recorded[1..];
      assert dirs != [] ==> recorded[1..] == dirs[1..];
    } else {
      OpenedLogin(dirs[1..], user, device, requested, now);
      var rest := RecordLogin(dirs[1..], user, device, requested);
      assert recorded == [dirs[0]] + rest && recorded[1..] == rest;
      assert made == [dirs[0]] + OpenStore(rest, user, device, now);
    }
  }

  lemma {:induction false} OpenedOwn(dirs: seq<UserDir>, user: string, device: string, now: nat)
    ensures exists u :: u in OpenStore(dirs, user, device, now) && u.name == Sanitize(user)
                        && HasStore(u, Sanitize(device))
    decreases |dirs|
  {
    var made := OpenStore(dirs, user, device, now);
    if dirs == [] || dirs[0].name == Sanitize(user) {
      OpenedOwnDevice(if dirs == [] then [] else dirs[0].devices, device, now);
      assert made[0] in made && HasStore(made[0], Sanitize(device));
    } else {
      OpenedOwn(dirs[1..], user, device, now);
      assert made == [dirs[0]] + OpenStore(dirs[1..], user, device, now);
    }
  }

  lemma {:induction false} OpenedOwnDevice(devices: seq<DeviceDir>, device: string, now: nat)
    ensures exists d :: d in OpenIn(devices, device, now) && d.name == Sanitize(device) && d.hasStore
    decreases |devices|
  {
    var made := OpenIn(devices, device, now);
    if devices == [] || devices[0].name == Sanitize(device) {
      assert made[0] in made;
    } else {
      OpenedOwnDevice(devices[1..], device, now);
      assert made == [devices[0]] + OpenIn(devices[1..], device, now);
    }
  }

  lemma RecordedIsContinued(dirs: seq<UserDir>, made: seq<UserDir>, user: string, device: string, requested: string,
                            now: nat, typed: string, found: Option<string>)
    requires NamesUser(Sanitize(user), typed)
    requires forall u, d :: u in dirs && d in u.devices ==> d.used < now
    requires exists u, d :: u in made && u.name == Sanitize(user) && d in u.devices
                            && IsRecorded(d, device, requested, now)
    requires forall u, d :: u in made && d in u.devices ==>
               (exists v :: v in dirs && d in v.devices) || IsRecorded(d, device, requested, now)
    requires IsDeviceFor(made, typed, requested, found)
    ensures found == if UnderOwnName(made, typed, requested) then Some(requested) else Some(device)
  {
    var u, d :| u in made && u.name == Sanitize(user) && d in u.devices && IsRecorded(d, device, requested, now);
    forall e | Continues(made, typed, requested, e)
      ensures e.used < now || IsRecorded(e, device, requested, now)
    {
      var v :| v in made && NamesUser(v.name, typed) && e in v.devices && Answers(e, requested);
    }
    RecordedLoginIsFoundAgain(made, u, d, typed, device, requested, found);
  }

  /** Two logins in a row with the same request, under any of the user's names: the second
      gets the device of the first, whichever that was, unless the requested ID has a store of
      its own. */
  lemma NextLoginContinues(dirs: seq<UserDir>, user: string, device: string, requested: string, now: nat,
                           typed: string, found: Option<string>)
    requires NamesUser(Sanitize(user), typed)
    requires forall u, d :: u in dirs && d in u.devices ==> d.used < now
    requires var dirs' := OpenStore(NoteDevice(dirs, user, device, requested), user, device, now);
             IsDeviceFor(dirs', typed, requested, found)
    ensures var dirs' := OpenStore(NoteDevice(dirs, user, device, requested), user, device, now);
            found == if UnderOwnName(dirs', typed, requested) then Some(requested) else Some(device)
  {
    if device == requested {
      OpenedOwn(dirs, user, device, now);
      var made := OpenStore(NoteDevice(dirs, user, device, requested), user, device, now);
      var u :| u in made && u.name == Sanitize(user) && HasStore(u, Sanitize(device));
      StoreIsThere(made, u, typed, requested);
    } else {
      OpenedLogin(dirs, user, device, requested, now);
      RecordedIsContinued(dirs, OpenStore(RecordLogin(dirs, user, device, requested), user, device, now),
                          user, device, requested, now, typed, found);
    }
  }
}
