/** The cache directory: apispace.json and apispace.meta.json, how they are opened, and how one
    refresh replaces them, the spec first and the meta second. */
module SchemaCache {
  import opened Prelude
  import opened SchemaTypes

  datatype File<+T> = Missing | Unreadable | Garbage | Parsed(value: T)

  // A private directory has mode 0700 or tighter; a loose one is refused by readers.
  datatype Dir = NoDir | DirStatFails | NotADir | LooseDir | PrivateDir

  datatype Disk = Disk(dir: Dir, meta: File<Meta>, spec: File<APISpace>)

  predicate WellFormed(d: Disk) {
    (d.dir.NoDir? || d.dir.NotADir?) ==> d.meta.Missing? && d.spec.Missing?
  }

  /** Opening. */

  datatype CacheError = NoCache | CacheCorrupt | CachePerms | CacheUnreadable

  datatype CachedQuerier = CachedQuerier(meta: Meta, services: Services)

  function OpenCache(d: Disk, region: string): Result<CachedQuerier, CacheError> {
    match d.dir
    case NoDir => Err(NoCache)
    case DirStatFails => Err(CacheUnreadable)
    case NotADir => Err(CacheUnreadable)
    case LooseDir => Err(CachePerms)
    case PrivateDir =>
      match ReadFile(d.meta)
      case Err(e) => Err(e)
      case Ok(meta) =>
        if meta.version != SPEC_VERSION || meta.region != region then Err(CacheCorrupt)
        else
          match ReadFile(d.spec)
          case Err(e) => Err(e)
          case Ok(space) => Ok(CachedQuerier(meta, space.services))
  }

  function ReadFile<T>(f: File<T>): Result<T, CacheError> {
    match f
    case Missing => Err(NoCache)
    case Unreadable => Err(CacheUnreadable)
    case Garbage => Err(CacheCorrupt)
    case Parsed(v) => Ok(v)
  }

  const DEFAULT_CACHE_TTL := 24 * 60 * 60 * 1_000_000_000

  predicate Stale(q: CachedQuerier, now: int) {
    now - q.meta.fetchedAt > DEFAULT_CACHE_TTL
  }

  /** Fetching. */

  // The answer to the index request: the listed paths when the body decodes.
  datatype IndexReply = NoReply | Replied(status: int, etag: string, body: Option<seq<string>>)

  const HTTP_OK := 200
  const HTTP_NOT_MODIFIED := 304

  datatype Answer = Changed(etag: string, index: seq<string>) | Unchanged(etag: string)

  // A 304 that does not repeat the tag stands for the one that was asked about.
  function GetConditional(ifNoneMatch: string, r: IndexReply): Option<Answer> {
    if r.NoReply? then None
    else if r.status == HTTP_NOT_MODIFIED then Some(Unchanged(if r.etag == "" then ifNoneMatch else r.etag))
    else if r.status != HTTP_OK || r.body.None? then None
    else Some(Changed(r.etag, r.body.value))
  }

  // What the network contributes to one refresh: the index reply, the services that the
  // fan-out collected for its paths, their hash and the time.
  datatype Upstream = Upstream(reply: IndexReply, services: Services, hash: string, now: int)

  function Fetched(region: string, etag: string, up: Upstream): APISpace {
    APISpace(SPEC_VERSION, region, up.now, etag, up.hash, up.services)
  }

  /** One refresh. */

  datatype DiskFaults = DiskFaults(mkdir: bool, spec: bool, meta: bool)

  datatype RefreshError = FetchFailed | MkdirFailed | SpecWriteFailed | MetaWriteFailed | MetaReadFailed

  datatype Refreshed = Refreshed(disk: Disk, err: Option<RefreshError>)

  // Anything unreadable counts as "no tag".
  function PreviousETag(d: Disk): string {
    if d.meta.Parsed? then d.meta.value.etag else ""
  }

  // An existing directory keeps its mode.
  function Mkdir(d: Disk, fails: bool): Option<Disk> {
    match d.dir
    case PrivateDir => Some(d)
    case LooseDir => Some(d)
    case NoDir => if fails then None else Some(d.(dir := PrivateDir))
    case DirStatFails => None
    case NotADir => None
  }

  function Touched(m: Meta, etag: string, now: int): Meta {
    m.(fetchedAt := now, etag := if etag != "" then etag else m.etag)
  }

  function Refresh(d: Disk, region: string, up: Upstream, faults: DiskFaults): Refreshed {
    match GetConditional(PreviousETag(d), up.reply)
    case None => Refreshed(d, Some(FetchFailed))
    case Some(answer) =>
      match Mkdir(d, faults.mkdir)
      case None => Refreshed(d, Some(MkdirFailed))
      case Some(d1) =>
        match answer
        case Unchanged(etag) =>
          if !d1.meta.Parsed? then Refreshed(d1, Some(MetaReadFailed))
          else if faults.meta then Refreshed(d1, Some(MetaWriteFailed))
          else Refreshed(d1.(meta := Parsed(Touched(d1.meta.value, etag, up.now))), None)
        case Changed(etag, _) =>
          var space := Fetched(region, etag, up);
          if faults.spec then Refreshed(d1, Some(SpecWriteFailed))
          else
            var d2 := d1.(spec := Parsed(space));
            if faults.meta then Refreshed(d2, Some(MetaWriteFailed))
            else Refreshed(d2.(meta := Parsed(MetaOf(space))), None)
  }

  /** What an answer, a directory and the files have to be like. */

  predicate NotModified(up: Upstream) {
    up.reply.Replied? && up.reply.status == 304
  }

  // Fresh data: a body that decodes, under no other status than 200.
  predicate FreshData(up: Upstream) {
    up.reply.Replied? && up.reply.status == 200 && up.reply.body.Some?
  }

  predicate DirUsable(d: Disk, faults: DiskFaults) {
    d.dir.PrivateDir? || d.dir.LooseDir? || (d.dir.NoDir? && !faults.mkdir)
  }

  // A meta that this version wrote for this region.
  predicate MetaFits(d: Disk, region: string) {
    d.dir.PrivateDir? && d.meta.Parsed? && d.meta.value.version == 1 && d.meta.value.region == region
  }

  predicate OpenFails(d: Disk, region: string, e: CacheError) {
    match e
    case NoCache => d.dir.NoDir? || (d.dir.PrivateDir? && d.meta.Missing?) || (MetaFits(d, region) && d.spec.Missing?)
    case CachePerms => d.dir.LooseDir?
    case CacheCorrupt =>
      || (d.dir.PrivateDir? && (d.meta.Garbage? || (d.meta.Parsed? && !MetaFits(d, region))))
      || (MetaFits(d, region) && d.spec.Garbage?)
    case CacheUnreadable =>
      || d.dir.DirStatFails? || d.dir.NotADir? || (d.dir.PrivateDir? && d.meta.Unreadable?)
      || (MetaFits(d, region) && d.spec.Unreadable?)
  }

  // The cache opens with exactly the meta and the services of two files that fit, and fails with
  // exactly the error of what does not.
  lemma OpensExactly(d: Disk, region: string)
    ensures forall q :: OpenCache(d, region) == Ok(q)
                        <==> MetaFits(d, region) && d.spec.Parsed? && q == CachedQuerier(d.meta.value, d.spec.value.services)
    ensures forall e :: OpenCache(d, region) == Err(e) <==> OpenFails(d, region, e)
  {
  }

  // A refresh without error promises a cache that opens, dated now, and stale a day later. After
  // fresh data it opens unless an existing directory is loose; after a 304 exactly when it opened
  // before.
  lemma RefreshedOpensExactly(d: Disk, region: string, up: Upstream, faults: DiskFaults)
    requires WellFormed(d) && Refresh(d, region, up, faults).err == None
    ensures var d' := Refresh(d, region, up, faults).disk;
            && WellFormed(d')
            && (OpenCache(d', region).Ok?
                <==> if NotModified(up) then OpenCache(d, region).Ok? else !d.dir.LooseDir?)
            && (OpenCache(d', region).Ok? ==>
                  var q := OpenCache(d', region).value;
                  && q.meta.fetchedAt == up.now
                  && (forall later :: Stale(q, later) <==> later > up.now + 86_400_000_000_000)
                  && q.services == if NotModified(up) then OpenCache(d, region).value.services else up.services)
  {
  }

  // After a 304 the files of an older binary stay unopenable although the refresh reports success.
  lemma OldVersionStaysClosed(d: Disk, region: string, up: Upstream, faults: DiskFaults)
    requires d.dir.PrivateDir? && d.meta.Parsed? && d.meta.value.version != SPEC_VERSION
    requires NotModified(up) && !faults.meta
    ensures Refresh(d, region, up, faults).err == None
    ensures OpenCache(Refresh(d, region, up, faults).disk, region) == Err(CacheCorrupt)
  {
  }

  // A refresh with an error promises untouched files. The meta is; the spec is too, except when
  // fresh data that differ could be written and the meta not.
  lemma ErrorKeepsFilesExactly(d: Disk, region: string, up: Upstream, faults: DiskFaults)
    requires Refresh(d, region, up, faults).err != None
    ensures var r := Refresh(d, region, up, faults);
            && r.disk.meta == d.meta
            && (r.disk.spec == d.spec
                <==> || !FreshData(up) || !DirUsable(d, faults) || faults.spec
                     || d.spec == Parsed(APISpace(1, region, up.now, up.reply.etag, up.hash, up.services)))
  {
  }

  predicate RefreshReports(d: Disk, up: Upstream, faults: DiskFaults, e: RefreshError) {
    var onTheWay := (NotModified(up) || FreshData(up)) && DirUsable(d, faults);
    match e
    case FetchFailed => !NotModified(up) && !FreshData(up)
    case MkdirFailed => (NotModified(up) || FreshData(up)) && !DirUsable(d, faults)
    case MetaReadFailed => onTheWay && NotModified(up) && !d.meta.Parsed?
    case SpecWriteFailed => onTheWay && FreshData(up) && faults.spec
    case MetaWriteFailed => onTheWay && faults.meta && if NotModified(up) then d.meta.Parsed? else !faults.spec
  }

  // It has an error exactly when nothing usable was answered, or a directory or file on the way
  // could not be written, or the meta to touch is not there, and then that error.
  lemma RefreshFailsExactly(d: Disk, region: string, up: Upstream, faults: DiskFaults)
    ensures forall e :: Refresh(d, region, up, faults).err == Some(e) <==> RefreshReports(d, up, faults, e)
    ensures Refresh(d, region, up, faults).err == None
            <==> && DirUsable(d, faults) && !faults.meta
                 && (if NotModified(up) then d.meta.Parsed? else FreshData(up) && !faults.spec)
  {
  }

  // The disk after any refresh. Only fresh data reach the spec; a 304 dates the meta anew and
  // gives it the tag that came with it, if any.
  lemma RefreshLeavesExactly(d: Disk, region: string, up: Upstream, faults: DiskFaults)
    ensures var d' := Refresh(d, region, up, faults).disk;
            && d'.dir == (if d.dir.NoDir? && !faults.mkdir && (NotModified(up) || FreshData(up)) then PrivateDir else d.dir)
            && d'.spec == (if FreshData(up) && DirUsable(d, faults) && !faults.spec then
                             Parsed(APISpace(1, region, up.now, up.reply.etag, up.hash, up.services))
                           else d.spec)
            && d'.meta == (if !DirUsable(d, faults) || faults.meta then d.meta
                           else if FreshData(up) && !faults.spec then Parsed(Meta(1, region, up.now, up.reply.etag, up.hash))
                           else if NotModified(up) && d.meta.Parsed? then
                             var m := d.meta.value;
                             Parsed(Meta(m.version, m.region, up.now, if up.reply.etag != "" then up.reply.etag else m.etag, m.schemaHash))
                           else d.meta)
  {
  }

  // For instance over any cache whose index changed.
  lemma ErrorCanReplaceSpec(d: Disk, region: string, services: Services, now: int)
    requires d.dir.PrivateDir? && d.spec.Parsed? && d.spec.value.services != services
    ensures var up := Upstream(Replied(HTTP_OK, "", Some([])), services, "", now);
            var r := Refresh(d, region, up, DiskFaults(false, false, true));
            r.err == Some(MetaWriteFailed) && r.disk.spec != d.spec
  {
  }

  class SchemaDir {
    var dir: Dir
    var meta: File<Meta>
    var spec: File<APISpace>

    function Contents(): Disk
      reads this
    {
      Disk(dir, meta, spec)
    }

    method RefreshFrom(region: string, up: Upstream, faults: DiskFaults) returns (err: Option<RefreshError>)
      requires region != ""
      modifies this
      ensures Refreshed(Contents(), err) == Refresh(old(Contents()), region, up, faults)
    {
      var prev := "";
      if meta.Parsed? {
        prev := meta.value.etag;
      }
      var answer := GetConditional(prev, up.reply);
      if answer.None? {
        return Some(FetchFailed);
      }
      if dir.NoDir? && !faults.mkdir {
        dir := PrivateDir;
      } else if !dir.PrivateDir? && !dir.LooseDir? {
        return Some(MkdirFailed);
      }
      if answer.value.Unchanged? {
        err := RewriteMetaFetchedAt(answer.value.etag, up.now, faults);
      } else {
        err := WriteFresh(Fetched(region, answer.value.etag, up), faults);
      }
    }

    method WriteFresh(space: APISpace, faults: DiskFaults) returns (err: Option<RefreshError>)
      modifies `spec, `meta
      ensures if faults.spec then err == Some(SpecWriteFailed) && spec == old(spec) && meta == old(meta)
              else if faults.meta then err == Some(MetaWriteFailed) && spec == Parsed(space) && meta == old(meta)
              else err == None && spec == Parsed(space) && meta == Parsed(MetaOf(space))
    {
      if faults.spec {
        return Some(SpecWriteFailed);
      }
      spec := Parsed(space);
      if faults.meta {
        return Some(MetaWriteFailed);
      }
      meta := Parsed(MetaOf(space));
      return None;
    }

    method RewriteMetaFetchedAt(etag: string, now: int, faults: DiskFaults) returns (err: Option<RefreshError>)
      modifies `meta
      ensures if !old(meta).Parsed? then err == Some(MetaReadFailed) && meta == old(meta)
              else if faults.meta then err == Some(MetaWriteFailed) && meta == old(meta)
              else err == None && meta == Parsed(Touched(old(meta).value, etag, now))
    {
      if !meta.Parsed? {
        return Some(MetaReadFailed);
      }
      var m := meta.value;
      m := m.(fetchedAt := now);
      if etag != "" {
        m := m.(etag := etag);
      }
      if faults.meta {
        return Some(MetaWriteFailed);
      }
      meta := Parsed(m);
      return None;
    }
  }
}
