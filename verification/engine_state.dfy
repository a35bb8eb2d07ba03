/**
 The torrent engine's bookkeeping as values: what Engine.mu guards, the torrents the
 library holds, and where each goroutine serving an entry has got to.
 */
module EngineState {
  import opened Wrappers
  import opened Text

  /** Index of a tracked entry. Entries are never forgotten: a removed one may still be served. */
  type Ref = nat
  /** Index of a torrent the library was handed. */
  type LibRef = nat

  datatype Id = Numbered(n: nat) | Named(text: string)

  datatype Status = Queued | Checking | Downloading | Seeding | Paused | Errored

  /** How sure the file system is that two destinations are one directory. */
  datatype DirMatch = DirDifferent | DirSame | DirUnknown

  /** A torrent the library can be asked to add: a magnet carries no info dictionary yet. */
  datatype Spec = Spec(hash: string, info: Option<string>)

  /**
   A torrent in the library; info is the name its dictionary gives its data, once known.
   shared is set once AddTorrentSpec hands the torrent to a second entry (isNew false).
   */
  datatype Torrent = Torrent(hash: string, info: Option<string>, down: bool, up: bool, dropped: bool, creator: Ref,
      shared: bool)

  /** Who called attach, which decides what a failure of it does. */
  datatype Via = ViaAdd | ViaQueue | ViaFetch

  /** Where the goroutine serving an entry is, between two critical sections. */
  datatype Phase =
    | Parked                                   // none: queued, or restored as errored
    | Fetching                                 // a .torrent address is being fetched
    | Starting(via: Via, spec: Spec)           // attach called
    | Joining(via: Via, spec: Spec, held: bool) // addToClient read the pause
    | Added(via: Via, spec: Spec)              // a held torrent joined, gates not shut yet
    | Shut(via: Via, spec: Spec)               // its gates are shut, its info not set yet
    | Joined(via: Via, spec: Spec, held: bool) // addToClient is done, not published
    | Failed(via: Via, info: Option<string>)   // attach failed, cleanup to come
    | Awaiting                                 // published, waiting for the info dictionary
    | Refusing(info: Option<string>)           // refused: dropped from the library, not yet marked
    | Waiting(name: string)                    // info accepted, waiting for deletes of that name
    | Wanted                                   // past the deletes: DownloadAll
    | Ended

  datatype Tracked = Tracked(
    id: Id,
    savePath: string,
    infoHash: string,
    byHash: bool,        // minted by findOrTrack
    state: Status,
    prePause: Status,
    paused: bool,
    userPaused: bool,
    seedDone: bool,
    seedOverride: bool,
    spacePaused: bool,
    removed: bool,
    refused: bool,
    leftName: string,
    sharedName: string,
    spec: Option<Spec>,  // held in the queue before it was attached
    url: bool,           // a .torrent address held in the queue before it was fetched
    t: Option<LibRef>,   // published library torrent
    lib: Option<LibRef>, // what AddTorrentSpec returned, published or not
    phase: Phase)

  /** A data delete under way; dirs is what its Remove had read about the other destinations. */
  datatype InflightDelete = InflightDelete(savePath: string, name: string, dirs: map<string, DirMatch>)

  datatype State = State(
    entries: seq<Tracked>,
    torrents: map<Id, Ref>,
    order: seq<Id>,
    queue: seq<Id>,
    libs: seq<Torrent>,
    client: map<string, LibRef>,     // the library's live torrents by infohash
    drops: set<LibRef>,              // Drop calls decided under the lock, not made yet
    deleting: map<nat, InflightDelete>,
    nextDelete: nat,
    shown: set<(string, string)>,    // destinations the file system ever showed to differ
    nextID: nat,
    maxActive: nat,
    closed: bool)

  function Init(maxActive: nat): State {
    State([], map[], [], [], [], map[], {}, map[], 0, {}, 0, maxActive, false)
  }

  // ----- names and directories -----

  /** mayBeSameName: nonempty and equal but for case. */
  predicate MayBeSameName(a: string, b: string) {
    a != "" && b != "" && (a == b || Lower(a) == Lower(b))
  }

  /** mayBeSameDir: everything not shown to differ, including a path never compared. */
  predicate MayBeSameDir(dest: string, savePath: string, dirs: map<string, DirMatch>) {
    savePath == dest || savePath !in dirs || dirs[savePath] != DirDifferent
  }

  /** isSameDir: only what was shown to be one directory. */
  predicate IsSameDir(dest: string, savePath: string, dirs: map<string, DirMatch>) {
    savePath == dest || (savePath in dirs && dirs[savePath] == DirSame)
  }

  // ----- entries -----

  predicate IsTracked(s: State, r: Ref) {
    r < |s.entries| && s.entries[r].id in s.torrents && s.torrents[s.entries[r].id] == r
  }

  /** The name the library gives a torrent's data, once its info dictionary is there. */
  function InfoOf(s: State, l: LibRef): Option<string> {
    if l < |s.libs| then s.libs[l].info else None
  }

  /** dataNameLocked: Some(name) once known, None while the entry may still name anything. */
  function DataName(s: State, e: Tracked): Option<string> {
    if e.refused then Some(e.leftName)
    else if e.t.Some? then InfoOf(s, e.t.value)
    else if e.spec.Some? then e.spec.value.info
    else if e.state == Errored then Some("")
    else None
  }

  predicate IsActive(e: Tracked) {
    !e.paused && (e.state == Checking || e.state == Downloading)
  }

  /** The ids holding a download slot. */
  function ActiveIds(s: State): set<Id> {
    set id | id in s.torrents && s.torrents[id] < |s.entries| && IsActive(s.entries[s.torrents[id]])
  }

  /** Whether the queue has something to start the entry with. */
  predicate Startable(e: Tracked) {
    e.t.Some? || e.spec.Some? || e.url
  }
}
