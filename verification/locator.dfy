/** Resolving a task's image reference to a local file path: field selection,
    syntactic classification of the value, the platform resolver and the
    probing of fixed storage roots when that resolver fails.

    The filesystem is a set of existing paths and the platform's
    `get_local_path` is a function that either returns a path or raises. */
module Locator {
  import opened Common

  /** A value in a task's `data` payload. Only strings have `startswith`;
      any other value makes the lookup raise, which `get_image_path` turns
      into "no image". */
  datatype FieldValue = Text(s: string) | NonText

  datatype Task = Task(id: Option<int>, data: map<string, FieldValue>)

  /** Outcome of the platform's `get_local_path(url, task_id)`. */
  datatype Fetch = Fetched(path: string) | Raised

  /** The environment the locator runs in. `home` is the value `~` expands
      to, without a trailing separator. */
  datatype Platform = Platform(
    existing: set<string>,
    getLocalPath: (string, Option<int>) -> Fetch,
    home: string)

  /** Keys tried, in this order, when the configured key is absent. */
  const FallbackKeys: seq<string> := ["image", "image_url", "img", "photo"]

  const HttpScheme: string := "http://"
  const HttpsScheme: string := "https://"
  /** Prefix of the platform's own local-file references. */
  const ManagedPrefix: string := "/data/local-files/"
  /** Marker in a managed reference after which the relative path follows. */
  const QueryMarker: string := "?d="

  // ---------------------------------------------------------------------
  // Field selection

  /** Which payload field supplies the image reference. */
  datatype FieldChoice =
    | Primary(value: FieldValue)
    | Fallback(key: string, value: FieldValue)
    | NoField

  /** Position of the first key of `keys` present in `data`. */
  function FirstPresent(data: map<string, FieldValue>, keys: seq<string>): (r: Option<nat>)
    ensures r.Some? ==> r.value < |keys| && keys[r.value] in data
    ensures r.Some? ==> forall j :: 0 <= j < r.value ==> keys[j] !in data
    ensures r.None? <==> forall j :: 0 <= j < |keys| ==> keys[j] !in data
  {
    if |keys| == 0 then None
    else if keys[0] in data then Some(0)
    else match FirstPresent(data, keys[1..])
      case None => None
      case Some(k) => Some(k + 1)
  }

  /** The configured key wins whenever it is present; otherwise the first
      fallback key present is used. */
  function SelectField(data: map<string, FieldValue>, primaryKey: string): (r: FieldChoice)
    ensures primaryKey in data ==> r == Primary(data[primaryKey])
    ensures primaryKey !in data ==> !r.Primary?
    ensures r.NoField? <==>
      primaryKey !in data && forall j :: 0 <= j < |FallbackKeys| ==> FallbackKeys[j] !in data
    ensures r.Fallback? ==>
      r.key in data && r.value == data[r.key] &&
      exists k :: 0 <= k < |FallbackKeys| && FallbackKeys[k] == r.key &&
        forall j :: 0 <= j < k ==> FallbackKeys[j] !in data
  {
    if primaryKey in data then Primary(data[primaryKey])
    else match FirstPresent(data, FallbackKeys)
      case None => NoField
      case Some(k) => Fallback(FallbackKeys[k], data[FallbackKeys[k]])
  }

  // ---------------------------------------------------------------------
  // Classification

  /** The three syntactic kinds of image reference. */
  datatype ImageReference = RemoteUrl(url: string) | ManagedPath(url: string) | DirectPath(path: string) {
    /** The field value the reference was classified from. */
    function Raw(): string {
      match this
      case RemoteUrl(u) => u
      case ManagedPath(u) => u
      case DirectPath(p) => p
    }
  }

  predicate IsRemote(s: string) {
    HttpScheme <= s || HttpsScheme <= s
  }

  /** Classification looks at prefixes only; the value itself is kept. */
  function Classify(s: string): (r: ImageReference)
    ensures r.Raw() == s
    ensures r.RemoteUrl? <==> IsRemote(s)
    ensures r.ManagedPath? <==> !IsRemote(s) && ManagedPrefix <= s
    ensures r.DirectPath? <==> !IsRemote(s) && !(ManagedPrefix <= s)
  {
    if IsRemote(s) then RemoteUrl(s)
    else if ManagedPrefix <= s then ManagedPath(s)
    else DirectPath(s)
  }

  // ---------------------------------------------------------------------
  // Fallback probing

  /** `os.path.join(base, rel)` on POSIX for two components: an absolute
      `rel` replaces `base`, otherwise a separator is inserted unless `base`
      is empty or already ends with one. */
  function Join(base: string, rel: string): string {
    if |rel| > 0 && rel[0] == '/' then rel
    else if |base| == 0 || base[|base| - 1] == '/' then base + rel
    else base + "/" + rel
  }

  /** The storage roots tried, in this order, by the fallback probe. The
      last two are `~/...` paths expanded against `home`. */
  function FallbackRoots(home: string): (roots: seq<string>)
    ensures |roots| == 6
  {
    [ "/home/yan/StudioSpace/AI_Annotation_Studio/core_work_flow/storage",
      "/data",
      "/app/data",
      "/opt/heartex/data",
      home + "/label-studio-data",
      home + "/.local/share/label-studio/media/upload" ]
  }

  /** `p` is the first join of a root with `rel` that exists. */
  ghost predicate FirstHit(roots: seq<string>, rel: string, existing: set<string>, p: string) {
    exists k :: 0 <= k < |roots| && p == Join(roots[k], rel) && p in existing &&
      forall j :: 0 <= j < k ==> Join(roots[j], rel) !in existing
  }

  ghost predicate NoHit(roots: seq<string>, rel: string, existing: set<string>) {
    forall k :: 0 <= k < |roots| ==> Join(roots[k], rel) !in existing
  }

  /** Position of the first root under which `rel` exists. */
  function Probe(roots: seq<string>, rel: string, existing: set<string>): (r: Option<nat>)
    ensures r.Some? ==> r.value < |roots| && Join(roots[r.value], rel) in existing
    ensures r.Some? ==> forall j :: 0 <= j < r.value ==> Join(roots[j], rel) !in existing
    ensures r.None? <==> NoHit(roots, rel, existing)
  {
    if |roots| == 0 then None
    else if Join(roots[0], rel) in existing then Some(0)
    else match Probe(roots[1..], rel, existing)
      case None => None
      case Some(k) => Some(k + 1)
  }

  /** `try_fallback_path_resolution`: take the text after the first `?d=`
      and return the first existing join with a fallback root. */
  function TryFallbackPathResolution(url: string, existing: set<string>, home: string): (r: Option<string>)
    ensures !Contains(url, QueryMarker) ==> r.None?
    ensures r.Some? ==> r.value in existing
    ensures AfterFirst(url, QueryMarker).Some? ==>
      var rel := AfterFirst(url, QueryMarker).value;
      (r.Some? ==> FirstHit(FallbackRoots(home), rel, existing, r.value)) &&
      (r.None? <==> NoHit(FallbackRoots(home), rel, existing))
  {
    match AfterFirst(url, QueryMarker)
    case None => None
    case Some(rel) =>
      var roots := FallbackRoots(home);
      match Probe(roots, rel, existing)
      case None => None
      case Some(k) => Some(Join(roots[k], rel))
  }

  // ---------------------------------------------------------------------
  // Resolution

  /** Resolve one field value. `probeOnRaise` is true for the configured
      key and false for the fallback keys: only the former probes the
      storage roots when the platform resolver raises. */
  function ResolveField(v: FieldValue, taskId: Option<int>, platform: Platform, probeOnRaise: bool): (r: Option<string>)
    ensures v.NonText? ==> r.None?
    ensures v.Text? && IsRemote(v.s) ==>
      match platform.getLocalPath(v.s, taskId)
      case Fetched(p) => r == Some(p)
      case Raised => r.None?
    ensures v.Text? && Classify(v.s).ManagedPath? ==>
      match platform.getLocalPath(v.s, taskId)
      case Fetched(p) => (r.Some? <==> p in platform.existing) && (r.Some? ==> r.value == p)
      case Raised =>
        (probeOnRaise ==> r == TryFallbackPathResolution(v.s, platform.existing, platform.home)) &&
        (!probeOnRaise ==> r.None?)
    ensures v.Text? && Classify(v.s).DirectPath? ==>
      (r.Some? <==> v.s in platform.existing) && (r.Some? ==> r.value == v.s)
    ensures r.Some? ==>
      r.value in platform.existing ||
      (v.Text? && IsRemote(v.s) && platform.getLocalPath(v.s, taskId) == Fetched(r.value))
  {
    match v
    case NonText => None
    case Text(s) =>
      match Classify(s)
      case RemoteUrl(u) =>
        (match platform.getLocalPath(u, taskId)
         case Fetched(p) => Some(p)
         case Raised => None)
      case ManagedPath(u) =>
        (match platform.getLocalPath(u, taskId)
         case Fetched(p) => if p in platform.existing then Some(p) else None
         case Raised =>
           if probeOnRaise then TryFallbackPathResolution(u, platform.existing, platform.home)
           else None)
      case DirectPath(p) =>
        if p in platform.existing then Some(p) else None
  }

  /** `get_image_path`: select the field, then resolve its value. */
  function GetImagePath(task: Task, primaryKey: string, platform: Platform): (r: Option<string>)
    ensures primaryKey in task.data ==>
      r == ResolveField(task.data[primaryKey], task.id, platform, true)
    ensures primaryKey !in task.data ==>
      forall k :: 0 <= k < |FallbackKeys| && FallbackKeys[k] in task.data ==>
        (forall j :: 0 <= j < k ==> FallbackKeys[j] !in task.data) ==>
        r == ResolveField(task.data[FallbackKeys[k]], task.id, platform, false)
    ensures SelectField(task.data, primaryKey).NoField? ==> r.None?
    ensures r.Some? ==>
      r.value in platform.existing ||
      exists key :: key in task.data && task.data[key].Text? && IsRemote(task.data[key].s) &&
        platform.getLocalPath(task.data[key].s, task.id) == Fetched(r.value)
  {
    match SelectField(task.data, primaryKey)
    case Primary(v) => ResolveField(v, task.id, platform, true)
    case Fallback(_, v) => ResolveField(v, task.id, platform, false)
    case NoField => None
  }

  /** The configured key, when present, decides the outcome on its own:
      two tasks that agree on it and on their id resolve alike, whatever
      their other fields hold. */
  lemma PrimaryKeyDecides(t1: Task, t2: Task, primaryKey: string, platform: Platform)
    requires primaryKey in t1.data && primaryKey in t2.data
    requires t1.data[primaryKey] == t2.data[primaryKey] && t1.id == t2.id
    ensures GetImagePath(t1, primaryKey, platform) == GetImagePath(t2, primaryKey, platform)
  {
  }
}
