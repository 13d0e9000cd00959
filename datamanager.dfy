/** The data manager (src/datamanager.py): it collects block records, writes
    them to local storage, builds the upload body for the results server,
    classifies the server's reply and assembles the e-mail text.
    `np.savetxt`, `pickle.dumps`, base64 and `json.loads` are functions the
    manager is given; the file system is a map from path to content; the
    HTTP reply and the clock are parameters. */
module DataManager {
  import opened Wrappers
  import opened Strings
  import opened Records
  import opened JsonData

  const MetaKeyErrorMessage: string := "KeyError in Meta Data."
  const ErrorTag: string := "ERROR"
  const UnexpectedUploadError: string := ErrorTag + ": There was an unexpected error during upload."
  const ServerUnreachable: string := ErrorTag + ": Server not reachable:"
  const UploadProcessingError: string := ErrorTag + ": There was an error processing the upload."
  const Base64Prefix: string := "data:application/octet-stream;base64,"
  /** Longest non-JSON reply that is passed on as it is. */
  const MaxPlainReply: nat := 150

  function DataMissingMessage(name: string): string
  {
    "Data missing.\nFailed to write\n" + name + "."
  }

  function UnknownFormatMessage(name: string): string
  {
    "Unable to write to file:\n" + name + "\nUnknown data format."
  }

  predicate EndsWith(s: string, suffix: string)
  {
    |suffix| <= |s| && s[|s| - |suffix|..] == suffix
  }

  predicate IsTable(d: Dict, name: string)
  {
    Get(d, TableKey) == Some(Text(name))
  }

  /** The record names one of the four known tables and holds every key the
      file name for that table needs. */
  predicate FilenameKeysPresent(d: Dict)
  {
    (IsTable(d, "device") && HasKey(d, IdKey))
    || IsTable(d, "user")
    || (IsTable(d, "session") && HasKey(d, TimeIsoKey))
    || (IsTable(d, "trials") && HasKey(d, TimeIsoKey) && HasKey(d, BlockKey))
  }

  /** `compile_filename`; `now` is the current time formatted with
      `time_fmt`, the fallback name for incomplete records. */
  function CompileFilename(d: Dict, now: string): string
  {
    var fallback := now + ".csv";
    match Get(d, TableKey)
    case None => fallback
    case Some(t) =>
      if t == Text("device") then
        match Get(d, IdKey)
        case Some(id) => "device-" + Str(id) + ".csv"
        case None => fallback
      else if t == Text("user") then "user.csv"
      else if t == Text("session") then
        match Get(d, TimeIsoKey)
        case Some(iso) => "session-" + Str(iso) + ".csv"
        case None => fallback
      else if t == Text("trials") then
        match Get(d, TimeIsoKey)
        case Some(iso) =>
          (match Get(d, BlockKey)
           case Some(b) => "trials-" + Str(iso) + "-Block_" + Str(b) + ".csv"
           case None => fallback)
        case None => fallback
      else fallback
  }

  /** Every file name is a CSV name; a record without a known table or
      without the keys its table's name needs is named after the time; each
      known table has its own name pattern. */
  lemma FilenameShape(d: Dict, now: string)
    ensures var name := CompileFilename(d, now);
            EndsWith(name, ".csv")
            && (!FilenameKeysPresent(d) ==> name == now + ".csv")
            && (IsTable(d, "device") && HasKey(d, IdKey) ==> StartsWith(name, "device-"))
            && (IsTable(d, "user") ==> name == "user.csv")
            && (IsTable(d, "session") && HasKey(d, TimeIsoKey) ==> StartsWith(name, "session-"))
            && (IsTable(d, "trials") && HasKey(d, TimeIsoKey) && HasKey(d, BlockKey) ==> StartsWith(name, "trials-"))
  {
  }

  /** Tables that are stored in a per-task, per-user folder. */
  predicate UsesSubFolder(t: Value)
  {
    t == Text("session") || t == Text("trials") || t == Text("user")
  }

  /** The source builds a path from `task` and `user` of such records, so
      these values must be strings wherever it reaches them. */
  predicate PathKeysAreText(d: Dict)
  {
    match Get(d, TableKey)
    case None => true
    case Some(t) =>
      UsesSubFolder(t) ==>
        (Get(d, TaskKey).Some? ==> Get(d, TaskKey).value.Text?)
        && (Get(d, TaskKey).Some? && Get(d, UserKey).Some? ==> Get(d, UserKey).value.Text?)
  }

  predicate AllPathKeysText(ds: seq<Dict>)
  {
    forall i :: 0 <= i < |ds| ==> PathKeysAreText(ds[i])
  }

  /** The folder, relative to storage, for a record of a per-user table. */
  function SubFolder(d: Dict): string
    requires PathKeysAreText(d) && Get(d, TableKey).Some? && UsesSubFolder(Get(d, TableKey).value)
    requires HasKey(d, TaskKey) && HasKey(d, UserKey)
  {
    ReplaceChar(Get(d, TaskKey).value.s, ' ', '_') + "/" + Get(d, UserKey).value.s
  }

  /** What one pass of the loop in `write_data_to_files` does with a record.
      `folder` is the sub-folder it creates, if any. */
  datatype WriteOutcome =
    | MetaKeyError
    | Written(folder: Option<string>, path: string, content: Value)
    | UnknownFormat(folder: Option<string>, name: string)
    | DataMissing(folder: Option<string>, name: string)

  function Outcome(d: Dict, storage: string, now: string): WriteOutcome
    requires PathKeysAreText(d)
  {
    match Get(d, TableKey)
    case None => MetaKeyError
    case Some(t) =>
      if UsesSubFolder(t) && !(HasKey(d, TaskKey) && HasKey(d, UserKey)) then MetaKeyError
      else
        var folder := if UsesSubFolder(t) then Some(SubFolder(d)) else None;
        var dirPath := if UsesSubFolder(t) then storage + "/" + SubFolder(d) else storage;
        var name := CompileFilename(d, now);
        var path := dirPath + "/" + name;
        match Get(d, DataKey)
        case None => DataMissing(folder, name)
        case Some(c) =>
          if c.Bytes? || c.Text? then Written(folder, path, c) else UnknownFormat(folder, name)
  }

  /** A record fails with a KeyError iff its table is missing, or it is a
      per-user table without task or user. */
  lemma OutcomeKeyError(d: Dict, storage: string, now: string)
    requires PathKeysAreText(d)
    ensures Outcome(d, storage, now).MetaKeyError? <==>
              !HasKey(d, TableKey)
              || (UsesSubFolder(Get(d, TableKey).value) && !(HasKey(d, TaskKey) && HasKey(d, UserKey)))
  {
  }

  /** Past the key check, a record is written iff its data is bytes or str,
      and fails as missing data iff it has none. */
  lemma OutcomeData(d: Dict, storage: string, now: string)
    requires PathKeysAreText(d) && !Outcome(d, storage, now).MetaKeyError?
    ensures var o := Outcome(d, storage, now);
            (o.Written? <==> Get(d, DataKey).Some? && (Get(d, DataKey).value.Bytes? || Get(d, DataKey).value.Text?))
            && (o.DataMissing? <==> !HasKey(d, DataKey))
            && (o.Written? ==> o.content == Get(d, DataKey).value)
  {
  }

  /** A written record's path ends with its compiled file name. */
  lemma OutcomePath(d: Dict, storage: string, now: string)
    requires PathKeysAreText(d) && Outcome(d, storage, now).Written?
    ensures EndsWith(Outcome(d, storage, now).path, "/" + CompileFilename(d, now))
  {
    var o := Outcome(d, storage, now);
    var name := CompileFilename(d, now);
    var dirPath := if UsesSubFolder(Get(d, TableKey).value) then storage + "/" + SubFolder(d) else storage;
    assert o.path == dirPath + "/" + name;
    assert o.path[|o.path| - |"/" + name|..] == "/" + name;
  }

  /** The outcome of every record, in order. */
  function Outcomes(ds: seq<Dict>, storage: string, now: string): (os: seq<WriteOutcome>)
    requires AllPathKeysText(ds)
    ensures |os| == |ds|
    ensures forall i :: 0 <= i < |ds| ==> os[i] == Outcome(ds[i], storage, now)
  {
    if |ds| == 0 then []
    else Outcomes(ds[..|ds| - 1], storage, now) + [Outcome(ds[|ds| - 1], storage, now)]
  }

  /** The failure events one outcome dispatches. */
  function Messages(o: WriteOutcome): seq<string>
  {
    match o
    case MetaKeyError => [MetaKeyErrorMessage]
    case Written(_, _, _) => []
    case UnknownFormat(_, name) => [UnknownFormatMessage(name)]
    case DataMissing(_, name) => [DataMissingMessage(name)]
  }

  function AllMessages(os: seq<WriteOutcome>): seq<string>
  {
    if |os| == 0 then [] else AllMessages(os[..|os| - 1]) + Messages(os[|os| - 1])
  }

  /** The store after one outcome. */
  function StoreStep(files: map<string, Value>, o: WriteOutcome): map<string, Value>
  {
    if o.Written? then files[o.path := o.content] else files
  }

  function StoreAfter(files: map<string, Value>, os: seq<WriteOutcome>): map<string, Value>
  {
    if |os| == 0 then files else StoreStep(StoreAfter(files, os[..|os| - 1]), os[|os| - 1])
  }

  function FolderOf(o: WriteOutcome): Option<string>
  {
    if o.MetaKeyError? then None else o.folder
  }

  /** The folders after one outcome. */
  function DirsStep(dirs: set<string>, o: WriteOutcome, storage: string): set<string>
  {
    if FolderOf(o).Some? then dirs + {storage + "/" + FolderOf(o).value} else dirs
  }

  function DirsAfter(dirs: set<string>, os: seq<WriteOutcome>, storage: string): set<string>
  {
    if |os| == 0 then dirs else DirsStep(DirsAfter(dirs, os[..|os| - 1], storage), os[|os| - 1], storage)
  }

  /** Extending the processed prefix by one outcome applies one step of
      each fold. */
  lemma FoldsStep(files: map<string, Value>, dirs: set<string>, os: seq<WriteOutcome>, i: nat, storage: string)
    requires i < |os|
    ensures StoreAfter(files, os[..i + 1]) == StoreStep(StoreAfter(files, os[..i]), os[i])
    ensures DirsAfter(dirs, os[..i + 1], storage) == DirsStep(DirsAfter(dirs, os[..i], storage), os[i], storage)
    ensures AllMessages(os[..i + 1]) == AllMessages(os[..i]) + Messages(os[i])
    ensures SavedAfter(os[..i + 1]) == os[i].Written?
  {
    assert os[..i + 1][..i] == os[..i];
  }

  /** `is_data_saved` after the loop: set by the last record alone. */
  function SavedAfter(os: seq<WriteOutcome>): bool
  {
    |os| == 0 || os[|os| - 1].Written?
  }

  lemma {:induction false} AllMessagesAppend(a: seq<WriteOutcome>, b: seq<WriteOutcome>)
    ensures AllMessages(a + b) == AllMessages(a) + AllMessages(b)
    decreases |b|
  {
    if |b| == 0 {
      assert a + b == a;
    } else {
      assert (a + b)[..|a + b| - 1] == a + b[..|b| - 1];
      assert (a + b)[|a + b| - 1] == b[|b| - 1];
      AllMessagesAppend(a, b[..|b| - 1]);
    }
  }

  /** Each record that is not written reports exactly one failure, a written
      one reports none. */
  lemma {:induction false} MessagesCount(os: seq<WriteOutcome>)
    ensures |AllMessages(os)| <= |os|
    ensures AllMessages(os) == [] <==> forall i :: 0 <= i < |os| ==> os[i].Written?
  {
    if |os| > 0 {
      var init := os[..|os| - 1];
      MessagesCount(init);
      assert forall i :: 0 <= i < |init| ==> init[i] == os[i];
      if AllMessages(os) == [] {
        assert AllMessages(init) == [];
      }
    }
  }

  /** Every file in the store was there before or was written by a record. */
  lemma {:induction false} StoreAfterFrom(files: map<string, Value>, os: seq<WriteOutcome>, p: string)
    requires p in StoreAfter(files, os)
    ensures p in files || exists i :: 0 <= i < |os| && os[i].Written? && os[i].path == p
  {
    if |os| > 0 {
      var init := os[..|os| - 1];
      var o := os[|os| - 1];
      if !(o.Written? && o.path == p) {
        StoreAfterFrom(files, init, p);
        if !(p in files) {
          var i :| 0 <= i < |init| && init[i].Written? && init[i].path == p;
          assert os[i] == init[i];
        }
      }
    }
  }

  /** The last record to write a path decides its content. */
  lemma {:induction false} StoreAfterLastWrite(files: map<string, Value>, os: seq<WriteOutcome>, k: nat)
    requires k < |os| && os[k].Written?
    requires forall j :: k < j < |os| ==> !(os[j].Written? && os[j].path == os[k].path)
    ensures os[k].path in StoreAfter(files, os) && StoreAfter(files, os)[os[k].path] == os[k].content
  {
    if k < |os| - 1 {
      var init := os[..|os| - 1];
      assert forall j :: k < j < |init| ==> init[j] == os[j];
      StoreAfterLastWrite(files, init, k);
    }
  }

  /** A record of a per-user table lands in `<storage>/<task>/<user>`,
      with blanks of `task` replaced by underscores; any other table
      lands in storage itself. */
  lemma WrittenPlacement(d: Dict, storage: string, now: string)
    requires PathKeysAreText(d) && Outcome(d, storage, now).Written?
    ensures var o := Outcome(d, storage, now);
            if UsesSubFolder(Get(d, TableKey).value)
            then o.folder == Some(ReplaceChar(Get(d, TaskKey).value.s, ' ', '_') + "/" + Get(d, UserKey).value.s)
                 && o.path == storage + "/" + o.folder.value + "/" + CompileFilename(d, now)
            else o.folder.None? && o.path == storage + "/" + CompileFilename(d, now)
  {
  }

  /** Only the last record decides `is_data_saved`: a failing record
      followed by a written one still counts as saved. */
  lemma EarlierFailureNotReflected(p: string, c: Value)
    ensures SavedAfter([MetaKeyError, Written(None, p, c)])
    ensures AllMessages([MetaKeyError, Written(None, p, c)]) == [MetaKeyErrorMessage]
  {
    var os := [MetaKeyError, Written(None, p, c)];
    assert os[..1] == [MetaKeyError];
    assert [MetaKeyError][..0] == [];
    assert AllMessages([MetaKeyError]) == [MetaKeyErrorMessage];
    assert AllMessages(os) == AllMessages(os[..1]) + Messages(os[1]);
  }

  /** The lists `_get_dash_post` builds, the failure events it dispatched,
      and whether it stopped with a TypeError (base64 of a non-bytes value). */
  datatype DashPost = DashPost(fileNames: seq<string>, lastModified: seq<Value>,
                               contents: seq<string>, messages: seq<string>, raised: bool)

  const EmptyPost: DashPost := DashPost([], [], [], [], false)

  /** One pass of the loop in `_get_dash_post`. */
  function DashStep(p: DashPost, d: Dict, now: string, b64: seq<byte> -> string): DashPost
  {
    if p.raised then p
    else
      var names := p.fileNames + [CompileFilename(d, now)];
      match Get(d, TimeKey)
      case None => p.(fileNames := names, messages := p.messages + [MetaKeyErrorMessage])
      case Some(t) =>
        var modified := p.lastModified + [t];
        match Get(d, DataKey)
        case None => p.(fileNames := names, lastModified := modified, messages := p.messages + [MetaKeyErrorMessage])
        case Some(c) =>
          if c.Bytes? then p.(fileNames := names, lastModified := modified, contents := p.contents + [Base64Prefix + b64(c.b)])
          else p.(fileNames := names, lastModified := modified, raised := true)
  }

  function DashPostOf(ds: seq<Dict>, now: string, b64: seq<byte> -> string): DashPost
  {
    if |ds| == 0 then EmptyPost else DashStep(DashPostOf(ds[..|ds| - 1], now, b64), ds[|ds| - 1], now, b64)
  }

  /** Once the loop has raised, later records change nothing. */
  lemma {:induction false} DashPostRaisedSticks(ds: seq<Dict>, k: nat, now: string, b64: seq<byte> -> string)
    requires k <= |ds| && DashPostOf(ds[..k], now, b64).raised
    ensures DashPostOf(ds, now, b64) == DashPostOf(ds[..k], now, b64)
    decreases |ds| - k
  {
    if k < |ds| {
      assert ds[..k + 1][..k] == ds[..k];
      DashPostRaisedSticks(ds, k + 1, now, b64);
    }
    else {
      assert ds[..k] == ds;
    }
  }

  /** One pass adds at most one name, time and content each, and keeps
      what was there. */
  lemma DashStepGrows(p: DashPost, d: Dict, now: string, b64: seq<byte> -> string)
    ensures var q := DashStep(p, d, now, b64);
            (p.raised ==> q == p)
            && (!p.raised ==> q.fileNames == p.fileNames + [CompileFilename(d, now)])
            && (|q.lastModified| == |p.lastModified| || (!p.raised && |q.lastModified| == |p.lastModified| + 1))
            && (|q.contents| == |p.contents| || (|q.contents| == |p.contents| + 1 && |q.lastModified| == |p.lastModified| + 1))
            && q.contents[..|p.contents|] == p.contents
            && (|q.contents| > |p.contents| ==> StartsWith(q.contents[|p.contents|], Base64Prefix))
            && (!q.raised ==> |q.contents| + |q.messages| == |p.contents| + |p.messages| + 1 || p == q)
            && (q.raised && !p.raised ==> |q.contents| == |p.contents| && |q.messages| == |p.messages|)
  {
  }

  /** Every record gets a file name before its time and data are looked up,
      so there are at least as many names as modification times and at least
      as many times as contents; without an error, every record gives either
      a content or a failure event, and the names follow the records. */
  lemma {:induction false} DashPostCounts(ds: seq<Dict>, now: string, b64: seq<byte> -> string)
    ensures var p := DashPostOf(ds, now, b64);
            |p.contents| <= |p.lastModified| <= |p.fileNames| <= |ds|
            && (!p.raised ==> |p.fileNames| == |ds| && |p.contents| + |p.messages| == |ds|)
  {
    if |ds| > 0 {
      var init := ds[..|ds| - 1];
      DashPostCounts(init, now, b64);
      var p := DashPostOf(init, now, b64);
      DashStepGrows(p, ds[|ds| - 1], now, b64);
    }
  }

  /** The file names follow the records, one per record reached. */
  lemma {:induction false} DashPostNames(ds: seq<Dict>, now: string, b64: seq<byte> -> string, i: nat)
    requires i < |DashPostOf(ds, now, b64).fileNames|
    ensures i < |ds| && DashPostOf(ds, now, b64).fileNames[i] == CompileFilename(ds[i], now)
  {
    var init := ds[..|ds| - 1];
    var p := DashPostOf(init, now, b64);
    DashStepGrows(p, ds[|ds| - 1], now, b64);
    DashPostCounts(init, now, b64);
    if i < |p.fileNames| {
      DashPostNames(init, now, b64, i);
      assert init[i] == ds[i];
    }
  }

  predicate AllDataUrls(contents: seq<string>)
  {
    forall i :: 0 <= i < |contents| ==> StartsWith(contents[i], Base64Prefix)
  }

  /** Every uploaded content is a base64 data URL. */
  lemma {:induction false} DashPostPrefix(ds: seq<Dict>, now: string, b64: seq<byte> -> string)
    ensures AllDataUrls(DashPostOf(ds, now, b64).contents)
  {
    if |ds| > 0 {
      var p := DashPostOf(ds[..|ds| - 1], now, b64);
      DashPostPrefix(ds[..|ds| - 1], now, b64);
      DashStepGrows(p, ds[|ds| - 1], now, b64);
      DataUrlsExtend(p.contents, DashPostOf(ds, now, b64).contents);
    }
  }

  /** Data URLs followed by at most one more data URL. */
  lemma DataUrlsExtend(a: seq<string>, b: seq<string>)
    requires AllDataUrls(a) && |a| <= |b| && b[..|a|] == a
    requires |b| == |a| || (|b| == |a| + 1 && StartsWith(b[|a|], Base64Prefix))
    ensures AllDataUrls(b)
  {
    forall i | 0 <= i < |b|
      ensures StartsWith(b[i], Base64Prefix)
    {
      if i < |a| {
        assert b[i] == b[..|a|][i] == a[i];
      }
    }
  }

  /** The outcome of `requests.post`. */
  datatype HttpReply = Reply(text: string) | ConnectionFailed | OtherFailure

  /** `_get_response` */
  function GetResponse(server: string, reply: HttpReply): (r: string)
    ensures reply.Reply? ==> r == reply.text
    ensures !reply.Reply? ==> StartsWith(r, ErrorTag)
  {
    match reply
    case Reply(text) => text
    case ConnectionFailed =>
      assert (ServerUnreachable + "\n" + server)[..|ErrorTag|] == ErrorTag;
      ServerUnreachable + "\n" + server
    case OtherFailure =>
      assert UploadProcessingError[..|ErrorTag|] == ErrorTag;
      UploadProcessingError
  }

  /** The two places of the dash reply that can hold the message. */
  const OutputPath: seq<Key> :=
    [Field("response"), Field("output-data-upload"), Field("children"), Index(0), Field("props"), Field("children")]
  const PropsPath: seq<Key> :=
    [Field("response"), Field("props"), Field("children"), Index(0), Field("props"), Field("children")]

  /** The result of `_parse_response`: the message, or a TypeError that
      escapes it (a subscript the JSON value does not support). */
  datatype Parsed = Said(msg: Json) | ParseRaised

  /** `_parse_response`: `parsed` is `json.loads(response)`, None when the
      text is not JSON. */
  function ParseResponse(response: string, parsed: Option<Json>): (r: Parsed)
    ensures parsed.None? && |response| <= MaxPlainReply ==> r == Said(JStr(response))
    ensures parsed.None? && |response| > MaxPlainReply ==> r == Said(JStr(UnexpectedUploadError))
    ensures parsed.Some? ==>
              (r.ParseRaised? <==> Walk(parsed.value, OutputPath).Raises? || Walk(parsed.value, PropsPath).Raises?)
    ensures parsed.Some? && r.Said? ==>
              (Truthy(r.msg) && (r.msg == JStr(UnexpectedUploadError)
                 || (Walk(parsed.value, PropsPath).Found? && r.msg == Walk(parsed.value, PropsPath).v)
                 || (Walk(parsed.value, OutputPath).Found? && r.msg == Walk(parsed.value, OutputPath).v)))
    ensures (parsed.Some? && r.Said? && Walk(parsed.value, PropsPath).Found? && Truthy(Walk(parsed.value, PropsPath).v))
              ==> r.msg == Walk(parsed.value, PropsPath).v
    ensures (parsed.Some? && r.Said? && Walk(parsed.value, PropsPath).Found? && !Truthy(Walk(parsed.value, PropsPath).v))
              ==> r.msg == JStr(UnexpectedUploadError)
    ensures (parsed.Some? && r.Said? && !Walk(parsed.value, PropsPath).Found?
             && Walk(parsed.value, OutputPath).Found? && Truthy(Walk(parsed.value, OutputPath).v))
              ==> r.msg == Walk(parsed.value, OutputPath).v
    ensures (parsed.Some? && r.Said? && !(Walk(parsed.value, PropsPath).Found? && Truthy(Walk(parsed.value, PropsPath).v))
             && !(Walk(parsed.value, OutputPath).Found? && Truthy(Walk(parsed.value, OutputPath).v)))
              ==> r.msg == JStr(UnexpectedUploadError)
  {
    match parsed
    case None =>
      if |response| > MaxPlainReply then Said(JStr(UnexpectedUploadError)) else Said(JStr(response))
    case Some(j) =>
      var first := Walk(j, OutputPath);
      if first.Raises? then ParseRaised
      else
        var msg := if first.Found? then first.v else JStr("");
        var second := Walk(j, PropsPath);
        if second.Raises? then ParseRaised
        else
          var msg' := if second.Found? then second.v else msg;
          if Truthy(msg') then Said(msg') else Said(JStr(UnexpectedUploadError))
  }

  /** `_get_uploaded_status`: a reply that is not a string cannot be
      lower-cased, and counts as success. */
  function UploadedStatus(msg: Json): bool
  {
    match msg
    case JStr(s) =>
      var l := Lower(s);
      !(StartsWith(l, "error") || StartsWith(l, Lower("ERROR")) || Contains(l, Lower("ERROR")))
    case _ => true
  }

  /** The three tests reduce to one: the lower-cased text mentions "error". */
  lemma UploadedStatusText(s: string)
    ensures UploadedStatus(JStr(s)) <==> !Contains(Lower(s), "error")
  {
    assert Lower("ERROR") == "error";
  }

  /** A text that starts with "ERROR" is never a successful upload. */
  lemma ErrorTextNotSent(s: string)
    requires StartsWith(s, ErrorTag)
    ensures !UploadedStatus(JStr(s))
  {
    var l := Lower(s);
    assert Lower(ErrorTag) == "error";
    assert l[..5] == Lower(s[..5]);
  }

  /** When the server cannot be reached or the request fails, the text the
      manager produces is not JSON, and the upload is never counted as sent. */
  lemma FailedRequestNotSent(server: string, reply: HttpReply)
    requires !reply.Reply?
    ensures ParseResponse(GetResponse(server, reply), None).Said?
    ensures !UploadedStatus(ParseResponse(GetResponse(server, reply), None).msg)
  {
    var res := GetResponse(server, reply);
    var m := ParseResponse(res, None).msg;
    if |res| > MaxPlainReply {
      assert m == JStr(UnexpectedUploadError);
      assert UnexpectedUploadError[..|ErrorTag|] == ErrorTag;
      ErrorTextNotSent(UnexpectedUploadError);
    } else {
      assert m == JStr(res);
      ErrorTextNotSent(res);
    }
  }

  /** An empty reply is not JSON, is passed on as it is, and counts as sent. */
  lemma EmptyReplyCountsAsSent()
    ensures ParseResponse("", None) == Said(JStr(""))
    ensures UploadedStatus(JStr(""))
  {
  }

  const EmailHeader: string := "\n\n### Data ###\n\n"
  const Disclaimer: string :=
    "Disclaimer:\nBy submitting this e-mail you agree to the data processing and evaluation for the purpose of "
    + "this scientific investigation and any other purpose that an interested third party might have.\n"
    + "The research data below will be copied from the received e-mail and will be made publicly "
    + "available on the Internet under a CC-BY-SA license, as stated in the privacy policy you gave "
    + "your consent to before participating in the study. The e-mail itself will be deleted within "
    + "10 days from our e-mail service to separate the sender's address from the research data "
    + "for the purpose of anonymization. The research data itself does not contain personal "
    + "or sensitive information that could be used to identify you.\n"

  /** The `key: value` lines of one record, in insertion order. */
  function RecordLines(d: Dict): seq<string>
  {
    KeyLines(d, d.keys)
  }

  function KeyLines(d: Dict, ks: seq<MetaKey>): seq<string>
  {
    if |ks| == 0 then [] else [KeyName(ks[0]) + ": " + Str(Entry(d, ks[0]))] + KeyLines(d, ks[1..])
  }

  /** One line per key, in the dict's order, each naming the key and its value. */
  lemma {:induction false} KeyLinesShape(d: Dict, ks: seq<MetaKey>)
    ensures |KeyLines(d, ks)| == |ks|
    ensures forall i :: 0 <= i < |ks| ==> KeyLines(d, ks)[i] == KeyName(ks[i]) + ": " + Str(Entry(d, ks[i]))
  {
    if |ks| > 0 {
      KeyLinesShape(d, ks[1..]);
    }
  }

  /** The data part of the e-mail after the header: each record's lines,
      followed by a blank line. */
  function RecordText(d: Dict): string
  {
    Join(RecordLines(d), "\n") + "\n\n"
  }

  function EmailData(ds: seq<Dict>): string
  {
    if |ds| == 0 then "" else EmailData(ds[..|ds| - 1]) + RecordText(ds[|ds| - 1])
  }

  lemma EmailDataSnoc(a: seq<Dict>, d: Dict)
    ensures EmailData(a + [d]) == EmailData(a) + RecordText(d)
  {
    assert (a + [d])[..|a|] == a;
  }

  lemma {:induction false} EmailDataAppend(a: seq<Dict>, b: seq<Dict>)
    ensures EmailData(a + b) == EmailData(a) + EmailData(b)
    decreases |b|
  {
    if |b| == 0 {
      assert a + b == a;
    } else {
      var b', d := b[..|b| - 1], b[|b| - 1];
      assert b == b' + [d];
      assert a + b == (a + b') + [d];
      EmailDataAppend(a, b');
      EmailDataSnoc(a + b', d);
      EmailDataSnoc(b', d);
      StringAssoc(EmailData(a), EmailData(b'), RecordText(d));
    }
  }

  lemma StringAssoc(x: string, y: string, z: string)
    ensures (x + y) + z == x + (y + z)
  {
  }

  /** One more record's lines and blank line extend the header and the
      records before it to the header and the records up to it. */
  lemma EmailTextStep(text: string, ds: seq<Dict>, i: int)
    requires 0 <= i < |ds| && text == EmailHeader + EmailData(ds[..i])
    ensures (text + Join(RecordLines(ds[i]), "\n")) + "\n\n" == EmailHeader + EmailData(ds[..i + 1])
  {
    assert ds[..i + 1] == ds[..i] + [ds[i]];
    EmailDataSnoc(ds[..i], ds[i]);
    StringAssoc(EmailHeader, EmailData(ds[..i]), RecordText(ds[i]));
    StringAssoc(text, Join(RecordLines(ds[i]), "\n"), "\n\n");
  }

  datatype Email = Email(recipient: string, subject: string, text: string)

  class DataManager {
    var data: seq<Dict>
    var dataEmail: seq<Dict>
    var isInvalid: bool
    var isDataSaved: bool
    var isDataSent: bool
    /** `on_data_processing_failed` events, in order. */
    var failures: seq<string>
    /** `on_data_upload` events: status and message. */
    var uploads: seq<(bool, Json)>
    /** Local storage: files by path, and the folders created. */
    var files: map<string, Value>
    var dirs: set<string>
    const saveTxt: (Table, string, string) -> seq<byte>
    const pickleDumps: Table -> seq<byte>
    const b64: seq<byte> -> string
    const jsonLoads: string -> Option<Json>

    constructor (saveTxt: (Table, string, string) -> seq<byte>, pickleDumps: Table -> seq<byte>,
                 b64: seq<byte> -> string, jsonLoads: string -> Option<Json>)
      ensures data == [] && dataEmail == [] && !isInvalid && !isDataSaved && !isDataSent
      ensures failures == [] && uploads == [] && files == map[] && dirs == {}
      ensures this.saveTxt == saveTxt && this.pickleDumps == pickleDumps
      ensures this.b64 == b64 && this.jsonLoads == jsonLoads
    {
      data := [];
      dataEmail := [];
      isInvalid := false;
      isDataSaved := false;
      isDataSent := false;
      failures := [];
      uploads := [];
      files := map[];
      dirs := {};
      this.saveTxt := saveTxt;
      this.pickleDumps := pickleDumps;
      this.b64 := b64;
      this.jsonLoads := jsonLoads;
    }

    /** `clear_data_collection` */
    method ClearDataCollection()
      modifies this`data, this`dataEmail, this`isInvalid, this`isDataSent, this`isDataSaved
      ensures data == [] && dataEmail == [] && !isInvalid && !isDataSent && !isDataSaved
    {
      data := [];
      dataEmail := [];
      isInvalid := false;
      isDataSent := false;
      isDataSaved := false;
    }

    /** `add_data`: the table is stored as CSV bytes under the key 'data',
        with the column names joined by commas as header. The caller's
        dictionary gets the same key, so `stored` is what it holds after. */
    method AddData(columns: seq<string>, table: Table, metaData: Dict, fmt: string) returns (stored: Dict)
      modifies this`data
      ensures stored == Put(metaData, DataKey, Bytes(saveTxt(table, Join(columns, ","), fmt)))
      ensures data == old(data) + [stored]
    {
      var header := Join(columns, ",");
      stored := Put(metaData, DataKey, Bytes(saveTxt(table, header, fmt)));
      data := data + [stored];
    }

    /** `add_data_email`: the table is pickled under the key 'data'. */
    method AddDataEmail(table: Table, metaData: Dict) returns (stored: Dict)
      modifies this`dataEmail
      ensures stored == Put(metaData, DataKey, Bytes(pickleDumps(table)))
      ensures dataEmail == old(dataEmail) + [stored]
    {
      stored := Put(metaData, DataKey, Bytes(pickleDumps(table)));
      dataEmail := dataEmail + [stored];
    }

    /** `_create_subfolder` */
    method CreateSubfolder(storage: string, sub: string)
      modifies this`dirs
      ensures dirs == old(dirs) + {storage + "/" + sub}
    {
      dirs := dirs + {storage + "/" + sub};
    }

    /** `write_file`: bytes and str are written, anything else is refused
        with a failure event naming the file. */
    method WriteFile(path: string, name: string, content: Value) returns (ok: bool)
      modifies this`files, this`failures
      ensures ok <==> content.Bytes? || content.Text?
      ensures files == if ok then old(files)[path := content] else old(files)
      ensures failures == old(failures) + if ok then [] else [UnknownFormatMessage(name)]
    {
      if content.Bytes? || content.Text? {
        files := files[path := content];
        ok := true;
      } else {
        failures := failures + [UnknownFormatMessage(name)];
        ok := false;
      }
    }

    /** One pass of the loop in `write_data_to_files`. */
    method WriteRecord(d: Dict, storage: string, now: string) returns (ok: bool)
      requires PathKeysAreText(d)
      modifies this`files, this`dirs, this`failures
      ensures var o := Outcome(d, storage, now);
              ok == o.Written?
              && files == StoreStep(old(files), o)
              && dirs == DirsStep(old(dirs), o, storage)
              && failures == old(failures) + Messages(o)
    {
      var table := Get(d, TableKey);
      var keyError := false;
      var dirPath := storage;
      if table.None? {
        keyError := true;
      } else if UsesSubFolder(table.value) {
        var task := Get(d, TaskKey);
        var user := Get(d, UserKey);
        if task.None? || user.None? {
          keyError := true;
        } else {
          var sub := ReplaceChar(task.value.s, ' ', '_') + "/" + user.value.s;
          CreateSubfolder(storage, sub);
          dirPath := storage + "/" + sub;
        }
      }
      if keyError {
        ok := false;
        failures := failures + [MetaKeyErrorMessage];
      } else {
        var name := CompileFilename(d, now);
        var path := dirPath + "/" + name;
        var content := Get(d, DataKey);
        if content.None? {
          ok := false;
          failures := failures + [DataMissingMessage(name)];
        } else {
          ok := WriteFile(path, name, content.value);
        }
      }
    }

    /** `write_data_to_files`: `storage` is the storage path and `now` the
        fallback file name stamp. */
    method WriteDataToFiles(storage: string, now: string)
      requires AllPathKeysText(data)
      modifies this`files, this`dirs, this`failures, this`isDataSaved
      ensures files == StoreAfter(old(files), Outcomes(data, storage, now))
      ensures dirs == DirsAfter(old(dirs), Outcomes(data, storage, now), storage)
      ensures failures == old(failures) + AllMessages(Outcomes(data, storage, now))
      ensures isDataSaved == SavedAfter(Outcomes(data, storage, now))
    {
      ghost var os := Outcomes(data, storage, now);
      var success := true;
      var i := 0;
      while i < |data|
        invariant 0 <= i <= |data|
        invariant files == StoreAfter(old(files), os[..i])
        invariant dirs == DirsAfter(old(dirs), os[..i], storage)
        invariant failures == old(failures) + AllMessages(os[..i])
        invariant success == SavedAfter(os[..i])
      {
        FoldsStep(old(files), old(dirs), os, i, storage);
        success := WriteRecord(data[i], storage, now);
        i := i + 1;
      }
      assert os[..|data|] == os;
      isDataSaved := success;
    }

    /** `_get_dash_post`: the file names, modification times and data URLs
        of the upload body, and the failure events dispatched on the way. */
    method GetDashPost(now: string) returns (post: DashPost)
      ensures post == DashPostOf(data, now, b64)
    {
      post := EmptyPost;
      var i := 0;
      while i < |data| && !post.raised
        invariant 0 <= i <= |data|
        invariant post == DashPostOf(data[..i], now, b64)
      {
        var d := data[i];
        assert data[..i + 1][..i] == data[..i];
        post := post.(fileNames := post.fileNames + [CompileFilename(d, now)]);
        var time := Get(d, TimeKey);
        if time.None? {
          post := post.(messages := post.messages + [MetaKeyErrorMessage]);
        } else {
          post := post.(lastModified := post.lastModified + [time.value]);
          var content := Get(d, DataKey);
          if content.None? {
            post := post.(messages := post.messages + [MetaKeyErrorMessage]);
          } else if content.value.Bytes? {
            post := post.(contents := post.contents + [Base64Prefix + b64(content.value.b)]);
          } else {
            post := post.(raised := true);
          }
        }
        i := i + 1;
      }
      if i < |data| {
        DashPostRaisedSticks(data, i, now, b64);
      } else {
        assert data[..i] == data;
      }
    }

    /** `upload_data`: `permission` is the outcome of asking for internet
        access, `reply` that of the POST request to `route`. An error that
        escapes (a TypeError while building the body or parsing the reply)
        ends the call with no upload event. */
    method UploadData(route: string, permission: bool, reply: HttpReply, now: string)
      modifies this`isDataSent, this`failures, this`uploads
      ensures !permission ==> isDataSent == old(isDataSent) && failures == old(failures) && uploads == old(uploads)
      ensures permission ==> failures == old(failures) + DashPostOf(data, now, b64).messages
      ensures var parsed := ParseResponse(GetResponse(route, reply), jsonLoads(GetResponse(route, reply)));
              if permission && !DashPostOf(data, now, b64).raised && parsed.Said?
              then isDataSent == UploadedStatus(parsed.msg) && uploads == old(uploads) + [(isDataSent, parsed.msg)]
              else isDataSent == old(isDataSent) && uploads == old(uploads)
    {
      if permission {
        var post := GetDashPost(now);
        failures := failures + post.messages;
        if !post.raised {
          var res := GetResponse(route, reply);
          var parsed := ParseResponse(res, jsonLoads(res));
          if parsed.Said? {
            var status := UploadedStatus(parsed.msg);
            isDataSent := status;
            uploads := uploads + [(status, parsed.msg)];
          }
        }
      }
    }

    /** `send_email`: the message handed to the e-mail client. */
    method ComposeEmail(recipient: string, appName: string) returns (e: Email)
      ensures e == Email(recipient, "New " + appName + " Data Set", Disclaimer + EmailHeader + EmailData(dataEmail))
    {
      var text := EmailHeader;
      var i := 0;
      while i < |dataEmail|
        invariant 0 <= i <= |dataEmail|
        invariant text == EmailHeader + EmailData(dataEmail[..i])
      {
        var lines := Join(RecordLines(dataEmail[i]), "\n");
        EmailTextStep(text, dataEmail, i);
        text := text + lines;
        text := text + "\n\n";
        i := i + 1;
      }
      assert dataEmail[..i] == dataEmail;
      StringAssoc(Disclaimer, EmailHeader, EmailData(dataEmail));
      e := Email(recipient, "New " + appName + " Data Set", Disclaimer + text);
    }
  }
}
