/**
 * The lazy binding table of the application
 * (src/Acorn/Concerns/Bindings.php). registerContainerBindings fills
 * `availableBindings`, a map from an abstract (a service key or a class
 * name) to the binder method that knows how to bind it; makeWithBinding
 * runs that binder the first time one of its abstracts is asked for and
 * remembers it in `ranServiceBinders`. A binder is modelled by the keys it
 * passes to `singleton`; the factory closures themselves are not modelled.
 */
module Bindings {
  import opened Wrappers

  /** The binder methods named in the table (`register<Name>Bindings`). */
  datatype Binder =
    | Auth | Broadcasting | Bus | Cache | Composer | Config | Database | Encrypter
    | Event | Files | Filesystem | Hash | Log | Queue | Router | PsrRequest
    | Translation | UrlGenerator | Validator | View

  /** The classes this file names with `::class`. */
  datatype ClassName =
    | AuthManager
    | GuardContract
    | GateContract
    | BroadcasterContract
    | BroadcastFactoryContract
    | BusDispatcherContract
    | CacheFactoryContract
    | CacheRepositoryContract
    | EloquentFactory
    | EncrypterContract
    | EventsDispatcherContract
    | AcornFilesystem
    | IlluminateFilesystem
    | FilesystemFactoryContract
    | HasherContract
    | LoggerInterface
    | QueueFactoryContract
    | QueueContract
    | ServerRequestInterface
    | ResponseInterface
    | ValidationFactoryContract
    | ViewFactoryContract

  /** The namespace each class is declared in. */
  function ClassNamespace(c: ClassName): string {
    match c
    case AuthManager => "Illuminate\\Auth"
    case GuardContract => "Illuminate\\Contracts\\Auth"
    case GateContract => "Illuminate\\Contracts\\Auth\\Access"
    case BroadcasterContract => "Illuminate\\Contracts\\Broadcasting"
    case BroadcastFactoryContract => "Illuminate\\Contracts\\Broadcasting"
    case BusDispatcherContract => "Illuminate\\Contracts\\Bus"
    case CacheFactoryContract => "Illuminate\\Contracts\\Cache"
    case CacheRepositoryContract => "Illuminate\\Contracts\\Cache"
    case EloquentFactory => "Illuminate\\Database\\Eloquent"
    case EncrypterContract => "Illuminate\\Contracts\\Encryption"
    case EventsDispatcherContract => "Illuminate\\Contracts\\Events"
    case AcornFilesystem => "Roots\\Acorn\\Filesystem"
    case IlluminateFilesystem => "Illuminate\\Filesystem"
    case FilesystemFactoryContract => "Illuminate\\Contracts\\Filesystem"
    case HasherContract => "Illuminate\\Contracts\\Hashing"
    case LoggerInterface => "Psr\\Log"
    case QueueFactoryContract => "Illuminate\\Contracts\\Queue"
    case QueueContract => "Illuminate\\Contracts\\Queue"
    case ServerRequestInterface => "Psr\\Http\\Message"
    case ResponseInterface => "Psr\\Http\\Message"
    case ValidationFactoryContract => "Illuminate\\Contracts\\Validation"
    case ViewFactoryContract => "Illuminate\\Contracts\\View"
  }

  /** The class's own name within its namespace. */
  function ShortName(c: ClassName): string {
    match c
    case AuthManager => "AuthManager"
    case GuardContract => "Guard"
    case GateContract => "Gate"
    case BroadcasterContract => "Broadcaster"
    case BroadcastFactoryContract => "Factory"
    case BusDispatcherContract => "Dispatcher"
    case CacheFactoryContract => "Factory"
    case CacheRepositoryContract => "Repository"
    case EloquentFactory => "Factory"
    case EncrypterContract => "Encrypter"
    case EventsDispatcherContract => "Dispatcher"
    case AcornFilesystem => "Filesystem"
    case IlluminateFilesystem => "Filesystem"
    case FilesystemFactoryContract => "Factory"
    case HasherContract => "Hasher"
    case LoggerInterface => "LoggerInterface"
    case QueueFactoryContract => "Factory"
    case QueueContract => "Queue"
    case ServerRequestInterface => "ServerRequestInterface"
    case ResponseInterface => "ResponseInterface"
    case ValidationFactoryContract => "Factory"
    case ViewFactoryContract => "Factory"
  }

  /** The fully qualified name PHP gives each class (`::class` has no leading backslash). */
  function ClassString(c: ClassName): string {
    ClassNamespace(c) + "\\" + ShortName(c)
  }

  /**
   * The namespace the file declares. registerBroadcastingBindings writes
   * `Illuminate\Contracts\Broadcasting\...::class` without a leading
   * backslash, and PHP resolves such a name relative to this namespace.
   */
  const FileNamespace := "Roots\\Acorn\\Concerns\\"

  /**
   * An abstract the container is asked for: a service key, a class named
   * with a leading backslash, or a class named without one and so resolved
   * relative to FileNamespace.
   */
  datatype Abstract = Key(name: string) | Class(cls: ClassName) | RelativeClass(rel: ClassName)

  /** The string PHP uses as the array key for an abstract. */
  function AbstractName(a: Abstract): string {
    match a
    case Key(name) => name
    case Class(c) => ClassString(c)
    case RelativeClass(c) => FileNamespace + ClassString(c)
  }

  /** A class name resolved relative to the namespace is not the class itself. */
  lemma RelativeNameDiffers(c: ClassName)
    ensures AbstractName(RelativeClass(c)) != AbstractName(Class(c))
  {
    assert |AbstractName(RelativeClass(c))| > |AbstractName(Class(c))|;
  }

  /**
   * PHP keys `availableBindings` by string. An abstract is canonical when
   * it is a Key only if no class has that name, so that each string has
   * one canonical abstract and AbstractName tells canonical ones apart.
   */
  ghost predicate Canonical(a: Abstract) {
    a.Key? ==> forall c: ClassName :: ClassString(c) != a.name && FileNamespace + ClassString(c) != a.name
  }

  /** The canonical abstract of a string key: a class when some class has that name, a Key otherwise. */
  ghost function Parse(s: string): (r: Abstract)
    ensures Canonical(r) && AbstractName(r) == s
  {
    if exists c: ClassName :: ClassString(c) == s then
      var c :| ClassString(c) == s; Class(c)
    else if exists c: ClassName :: FileNamespace + ClassString(c) == s then
      var c :| FileNamespace + ClassString(c) == s; RelativeClass(c)
    else
      Key(s)
  }

  /** A class name, even resolved relative to the namespace, holds a namespace separator. */
  lemma ClassStringHasSeparator(c: ClassName)
    ensures '\\' in ClassString(c) && '\\' in FileNamespace + ClassString(c)
  {
    var n := |ClassNamespace(c)|;
    assert ClassString(c)[n] == '\\';
    assert (FileNamespace + ClassString(c))[|FileNamespace| + n] == '\\';
  }

  /** A key without a namespace separator, as every service key here is, names no class and is canonical. */
  lemma PlainKeyCanonical(name: string)
    requires '\\' !in name
    ensures Canonical(Key(name))
  {
    forall c: ClassName ensures ClassString(c) != name && FileNamespace + ClassString(c) != name {
      ClassStringHasSeparator(c);
    }
  }

  /** Entry `i` of the array literal that registerContainerBindings walks, as written. */
  function TableEntry(i: nat): (r: (Binder, seq<Abstract>))
    requires i < 21
    ensures r.0 == Validator <==> i == 18 || i == 19
  {
    match i
    case 0 => (Auth, [Key("auth"), Key("auth.driver"), Class(AuthManager), Class(GuardContract), Class(GateContract)])
    case 1 => (Broadcasting, [Class(BroadcasterContract), Class(BroadcastFactoryContract)])
    case 2 => (Bus, [Class(BusDispatcherContract)])
    case 3 => (Cache, [Key("cache"), Key("cache.store"), Class(CacheFactoryContract), Class(CacheRepositoryContract)])
    case 4 => (Composer, [Key("composer")])
    case 5 => (Config, [Key("config")])
    case 6 => (Database, [Key("db"), Class(EloquentFactory)])
    case 7 => (Encrypter, [Key("encrypter"), Class(EncrypterContract)])
    case 8 => (Event, [Key("events"), Class(EventsDispatcherContract)])
    case 9 => (Files, [Key("files"), Class(AcornFilesystem), Class(IlluminateFilesystem)])
    case 10 => (Filesystem, [Key("filesystem"), Class(FilesystemFactoryContract)])
    case 11 => (Hash, [Key("hash"), Class(HasherContract)])
    case 12 => (Log, [Key("log"), Class(LoggerInterface)])
    case 13 => (Queue, [Key("queue"), Key("queue.connection"), Class(QueueFactoryContract), Class(QueueContract)])
    case 14 => (Router, [Key("router")])
    case 15 => (PsrRequest, [Class(ServerRequestInterface), Class(ResponseInterface)])
    case 16 => (Translation, [Key("translator")])
    case 17 => (UrlGenerator, [Key("url")])
    case 18 => (Validator, [Key("validator")])
    case 19 => (Validator, [Class(ValidationFactoryContract)])
    case _ => (View, [Key("view"), Class(ViewFactoryContract)])
  }

  /** The array literal, entry by entry as written (two entries share the key Validator). */
  function BinderTable(): seq<(Binder, seq<Abstract>)> {
    seq(21, i requires 0 <= i < 21 => TableEntry(i))
  }

  /** None of the service keys this file names holds a namespace separator. */
  lemma ServiceKeysArePlain()
    ensures '\\' !in "auth"
         && '\\' !in "auth.driver"
         && '\\' !in "cache"
         && '\\' !in "cache.store"
         && '\\' !in "composer"
         && '\\' !in "config"
         && '\\' !in "db"
         && '\\' !in "encrypter"
         && '\\' !in "events"
         && '\\' !in "files"
         && '\\' !in "filesystem"
         && '\\' !in "hash"
         && '\\' !in "log"
         && '\\' !in "queue"
         && '\\' !in "queue.connection"
         && '\\' !in "router"
         && '\\' !in "translator"
         && '\\' !in "url"
         && '\\' !in "validator"
         && '\\' !in "view"
  {
  }

  /** Every abstract the array literal lists is canonical. */
  lemma TableIsCanonical(i: nat)
    requires i < 21
    ensures forall a | a in TableEntry(i).1 :: Canonical(a)
  {
    ServiceKeysArePlain();
    forall a | a in TableEntry(i).1 && a.Key? ensures Canonical(a) {
      PlainKeyCanonical(a.name);
    }
  }

  // ---------------------------------------------------------------------
  // The evaluated literal: a PHP array keyed by binder, kept in key order

  /** One `'method' => [abstracts]` entry. */
  type Entry = (Binder, seq<Abstract>)

  /** The position of a binder's entry, or -1 when the array has none. */
  function IndexOf(arr: seq<Entry>, b: Binder): (i: int)
    ensures -1 <= i < |arr|
    ensures i >= 0 ==> arr[i].0 == b
    ensures i < 0 <==> forall j | 0 <= j < |arr| :: arr[j].0 != b
  {
    if arr == [] then -1
    else if arr[0].0 == b then 0
    else
      var i := IndexOf(arr[1..], b);
      if i < 0 then -1 else i + 1
  }

  /** No binder has two entries. */
  predicate UniqueKeys(arr: seq<Entry>) {
    forall i, j | 0 <= i < j < |arr| :: arr[i].0 != arr[j].0
  }

  /** `$arr[$b]`, or None when the key is absent. */
  function Get(arr: seq<Entry>, b: Binder): Option<seq<Abstract>> {
    var i := IndexOf(arr, b);
    if i < 0 then None else Some(arr[i].1)
  }

  /** `$arr[$b] = $v`: overwrite in place when the key exists, otherwise append. */
  function Put(arr: seq<Entry>, b: Binder, v: seq<Abstract>): (r: seq<Entry>)
    requires UniqueKeys(arr)
    ensures UniqueKeys(r)
  {
    var i := IndexOf(arr, b);
    if i >= 0 then arr[i := (b, v)] else arr + [(b, v)]
  }

  /** A PHP array literal: each entry is written in turn, so a repeated key keeps its first position and its last value. */
  function ArrayLiteral(entries: seq<Entry>): (r: seq<Entry>)
    ensures UniqueKeys(r)
  {
    if entries == [] then []
    else
      var last := entries[|entries| - 1];
      Put(ArrayLiteral(entries[..|entries| - 1]), last.0, last.1)
  }

  /** Reference reading of a literal: the position of the entry written last for a key, or -1. */
  function LastIndex(entries: seq<Entry>, b: Binder): (j: int)
    ensures -1 <= j < |entries|
    ensures j >= 0 ==> entries[j].0 == b
    ensures forall k | j < k < |entries| :: entries[k].0 != b
  {
    if entries == [] then -1
    else if entries[|entries| - 1].0 == b then |entries| - 1
    else LastIndex(entries[..|entries| - 1], b)
  }

  /** Entry `j` of a literal is the one whose value the evaluated array keeps. */
  predicate Surviving(entries: seq<Entry>, j: int)
    requires 0 <= j < |entries|
  {
    LastIndex(entries, entries[j].0) == j
  }

  /** In an array with unique keys, the entry found for a key is the only one. */
  lemma IndexOfUnique(arr: seq<Entry>, b: Binder, i: int)
    requires UniqueKeys(arr) && 0 <= i < |arr| && arr[i].0 == b
    ensures IndexOf(arr, b) == i
  {
  }

  /** The position `Put` writes to, and the entries it leaves alone. */
  lemma PutShape(arr: seq<Entry>, b: Binder, v: seq<Abstract>) returns (n: nat)
    requires UniqueKeys(arr)
    ensures var r := Put(arr, b, v);
      && n < |r| && r[n] == (b, v) && |r| <= |arr| + 1
      && (n == |arr| ==> forall j | 0 <= j < |arr| :: arr[j].0 != b)
      && forall j | 0 <= j < |arr| && j != n :: r[j] == arr[j]
  {
    var k := IndexOf(arr, b);
    n := if k >= 0 then k else |arr|;
  }

  /** After `Put`, the key written reads back as the value written. */
  lemma GetPutSame(arr: seq<Entry>, b: Binder, v: seq<Abstract>)
    requires UniqueKeys(arr)
    ensures Get(Put(arr, b, v), b) == Some(v)
  {
    var n := PutShape(arr, b, v);
    IndexOfUnique(Put(arr, b, v), b, n);
  }

  /** After `Put`, every other key reads back as before. */
  lemma GetPutOther(arr: seq<Entry>, b: Binder, v: seq<Abstract>, c: Binder)
    requires UniqueKeys(arr) && c != b
    ensures Get(Put(arr, b, v), c) == Get(arr, c)
  {
    if IndexOf(arr, c) >= 0 {
      PutKeepsPresent(arr, b, v, c);
    } else {
      PutKeepsAbsent(arr, b, v, c);
    }
  }

  lemma PutKeepsPresent(arr: seq<Entry>, b: Binder, v: seq<Abstract>, c: Binder)
    requires UniqueKeys(arr) && c != b && IndexOf(arr, c) >= 0
    ensures IndexOf(Put(arr, b, v), c) == IndexOf(arr, c)
    ensures Put(arr, b, v)[IndexOf(arr, c)] == arr[IndexOf(arr, c)]
  {
    var r := Put(arr, b, v);
    var n := PutShape(arr, b, v);
    var j := IndexOf(arr, c);
    assert r[j] == arr[j];
    IndexOfUnique(r, c, j);
  }

  lemma PutKeepsAbsent(arr: seq<Entry>, b: Binder, v: seq<Abstract>, c: Binder)
    requires UniqueKeys(arr) && c != b && IndexOf(arr, c) < 0
    ensures IndexOf(Put(arr, b, v), c) < 0
  {
    var r := Put(arr, b, v);
    var n := PutShape(arr, b, v);
    forall i | 0 <= i < |r| ensures r[i].0 != c {
      if i != n { assert r[i] == arr[i]; }
    }
  }

  /** An array literal holds exactly the keys written, each with the value written last. */
  lemma {:induction false} ArrayLiteralLastWins(entries: seq<Entry>, b: Binder)
    ensures var j := LastIndex(entries, b);
      Get(ArrayLiteral(entries), b) == if j < 0 then None else Some(entries[j].1)
  {
    if entries != [] {
      var last := entries[|entries| - 1];
      ArrayLiteralLastWins(entries[..|entries| - 1], b);
      if last.0 == b {
        GetPutSame(ArrayLiteral(entries[..|entries| - 1]), b, last.1);
      } else {
        GetPutOther(ArrayLiteral(entries[..|entries| - 1]), last.0, last.1, b);
      }
    }
  }

  /** Every entry of the evaluated literal is a surviving entry of the literal, and every surviving entry is in it. */
  lemma LiteralEntries(entries: seq<Entry>)
    ensures var arr := ArrayLiteral(entries);
      && (forall i | 0 <= i < |arr| ::
            0 <= LastIndex(entries, arr[i].0) && arr[i].1 == entries[LastIndex(entries, arr[i].0)].1)
      && (forall j | 0 <= j < |entries| && Surviving(entries, j) ::
            0 <= IndexOf(arr, entries[j].0) && arr[IndexOf(arr, entries[j].0)].1 == entries[j].1)
  {
    var arr := ArrayLiteral(entries);
    forall i | 0 <= i < |arr|
      ensures 0 <= LastIndex(entries, arr[i].0) && arr[i].1 == entries[LastIndex(entries, arr[i].0)].1
    {
      ArrayLiteralLastWins(entries, arr[i].0);
      IndexOfUnique(arr, arr[i].0, i);
    }
    forall j | 0 <= j < |entries| && Surviving(entries, j)
      ensures 0 <= IndexOf(arr, entries[j].0) && arr[IndexOf(arr, entries[j].0)].1 == entries[j].1
    {
      ArrayLiteralLastWins(entries, entries[j].0);
    }
  }

  // ---------------------------------------------------------------------
  // The loop of registerContainerBindings: `$availableBindings[$abstract] = $method`

  /** The inner loop: every abstract of one entry is pointed at its binder, in order. */
  function AssignAbstracts(m: map<Abstract, Binder>, b: Binder, abstracts: seq<Abstract>): map<Abstract, Binder> {
    if abstracts == [] then m
    else AssignAbstracts(m, b, abstracts[..|abstracts| - 1])[abstracts[|abstracts| - 1] := b]
  }

  /** The outer loop over the entries of the evaluated literal, in order. */
  function Assign(m: map<Abstract, Binder>, arr: seq<Entry>): map<Abstract, Binder> {
    if arr == [] then m
    else
      var last := arr[|arr| - 1];
      AssignAbstracts(Assign(m, arr[..|arr| - 1]), last.0, last.1)
  }

  /** Reference reading of the loop: the last entry that lists an abstract, or -1. */
  function LastHolder(arr: seq<Entry>, x: Abstract): (h: int)
    ensures -1 <= h < |arr|
    ensures h >= 0 ==> x in arr[h].1
    ensures forall k | h < k < |arr| :: x !in arr[k].1
  {
    if arr == [] then -1
    else if x in arr[|arr| - 1].1 then |arr| - 1
    else LastHolder(arr[..|arr| - 1], x)
  }

  /** The inner loop binds exactly the abstracts it lists and keeps every other key. */
  lemma {:induction false} AssignAbstractsLookup(m: map<Abstract, Binder>, b: Binder, abstracts: seq<Abstract>, x: Abstract)
    ensures var r := AssignAbstracts(m, b, abstracts);
      && (x in abstracts ==> x in r && r[x] == b)
      && (x !in abstracts ==> (x in r <==> x in m) && (x in m ==> r[x] == m[x]))
  {
    if abstracts != [] {
      var init := abstracts[..|abstracts| - 1];
      AssignAbstractsLookup(m, b, init, x);
      assert abstracts == init + [abstracts[|abstracts| - 1]];
    }
  }

  /** After the loop an abstract names the binder of the last entry listing it; an abstract no entry lists keeps its old binding. */
  lemma {:induction false} AssignLookup(m: map<Abstract, Binder>, arr: seq<Entry>, x: Abstract)
    ensures var r := Assign(m, arr);
      var h := LastHolder(arr, x);
      && (h >= 0 ==> x in r && r[x] == arr[h].0)
      && (h < 0 ==> (x in r <==> x in m) && (x in m ==> r[x] == m[x]))
  {
    if arr != [] {
      var last := arr[|arr| - 1];
      AssignLookup(m, arr[..|arr| - 1], x);
      AssignAbstractsLookup(Assign(m, arr[..|arr| - 1]), last.0, last.1, x);
    }
  }

  /** `x` is listed by entry `j` of a literal and by no other entry. */
  predicate ListedOnlyAt(entries: seq<Entry>, x: Abstract, j: int) {
    0 <= j < |entries| && x in entries[j].1
    && forall k | 0 <= k < |entries| && x in entries[k].1 :: k == j
  }

  /** An abstract listed by exactly one entry of a literal, the last entry for binder `b`, is bound to `b`. */
  lemma LiteralBinding(entries: seq<Entry>, m: map<Abstract, Binder>, x: Abstract, b: Binder, j: int)
    requires ListedOnlyAt(entries, x, j) && LastIndex(entries, b) == j
    ensures var r := Assign(m, ArrayLiteral(entries));
      x in r && r[x] == b
  {
    var arr := ArrayLiteral(entries);
    LiteralEntries(entries);
    assert Surviving(entries, j);
    var i := IndexOf(arr, entries[j].0);
    assert x in arr[i].1;
    var h := LastHolder(arr, x);
    assert h >= 0;
    var k := LastIndex(entries, arr[h].0);
    assert Surviving(entries, k);
    AssignLookup(m, arr, x);
  }

  /** An abstract listed only by an entry that is overwritten keeps whatever binding it had. */
  lemma LiteralUnbound(entries: seq<Entry>, m: map<Abstract, Binder>, x: Abstract, j: int)
    requires ListedOnlyAt(entries, x, j) && !Surviving(entries, j)
    ensures var r := Assign(m, ArrayLiteral(entries));
      && (x in r <==> x in m)
      && (x in m ==> r[x] == m[x])
  {
    var arr := ArrayLiteral(entries);
    LiteralEntries(entries);
    var h := LastHolder(arr, x);
    if h >= 0 {
      assert false;
    }
    AssignLookup(m, arr, x);
  }

  // ---------------------------------------------------------------------
  // The binder methods, by the keys they register with `singleton`

  /**
   * The keys a binder registers. The Router and PSR request binders are
   * not defined in this file; they are modelled as registering nothing.
   */
  function SingletonKeys(b: Binder): seq<Abstract> {
    match b
    case Auth => [Key("auth"), Key("auth.driver"), Class(GateContract)]
    case Broadcasting =>
      [RelativeClass(BroadcastFactoryContract), RelativeClass(BroadcasterContract)]
    case Bus => [Class(BusDispatcherContract)]
    case Cache => [Key("cache"), Key("cache.store")]
    case Composer => [Key("composer")]
    case Config => [Key("config")]
    case Database => [Key("db")]
    case Encrypter => [Key("encrypter")]
    case Event => [Key("events")]
    case Files => [Key("files")]
    case Filesystem => [Key("filesystem")]
    case Hash => [Key("hash")]
    case Log => [Class(LoggerInterface)]
    case Queue => [Key("queue"), Key("queue.connection")]
    case Router => []
    case PsrRequest => []
    case Translation => [Key("translator")]
    case UrlGenerator => [Key("url")]
    case Validator => [Key("validator")]
    case View => [Key("view")]
  }

  /** Every key a binder registers is canonical. */
  lemma SingletonKeysCanonical(b: Binder)
    ensures forall a | a in SingletonKeys(b) :: Canonical(a)
  {
    ServiceKeysArePlain();
    forall a | a in SingletonKeys(b) && a.Key? ensures Canonical(a) {
      PlainKeyCanonical(a.name);
    }
  }

  /** The keys a binder registers, as a set. */
  function KeySet(b: Binder): set<Abstract> {
    set k | k in SingletonKeys(b)
  }

  /** The keys registered by a sequence of binder runs. */
  function KeysBoundBy(calls: seq<Binder>): set<Abstract> {
    if calls == [] then {} else KeysBoundBy(calls[..|calls| - 1]) + KeySet(calls[|calls| - 1])
  }

  // ---------------------------------------------------------------------
  // What the table evaluates to

  /** The evaluated table. */
  function AvailableAfterRegistration(m: map<Abstract, Binder>): map<Abstract, Binder> {
    Assign(m, ArrayLiteral(BinderTable()))
  }

  // Concrete facts about the table, one per lemma to keep each proof small.

  lemma LastAuthEntry()
    ensures LastIndex(BinderTable(), Auth) == 0
  {
    var t := BinderTable();
    assert t[0].0 == Auth;
    assert forall k | 0 < k < |t| :: t[k].0 != Auth;
  }

  lemma LastBroadcastingEntry()
    ensures LastIndex(BinderTable(), Broadcasting) == 1
  {
    var t := BinderTable();
    assert t[1].0 == Broadcasting;
    assert forall k | 1 < k < |t| :: t[k].0 != Broadcasting;
  }

  lemma FirstValidatorEntryIsOverwritten()
    ensures !Surviving(BinderTable(), 18)
  {
    assert BinderTable()[19].0 == BinderTable()[18].0;
  }

  lemma LastValidatorEntry()
    ensures LastIndex(BinderTable(), Validator) == 19
  {
    var t := BinderTable();
    assert t[19].0 == Validator;
    assert forall k | 19 < k < |t| :: t[k].0 != Validator;
  }

  lemma ValidatorKeyListing()
    ensures ListedOnlyAt(BinderTable(), Key("validator"), 18)
  {
    var t := BinderTable();
    assert Key("validator") in t[18].1;
  }

  lemma ValidationFactoryListing()
    ensures ListedOnlyAt(BinderTable(), Class(ValidationFactoryContract), 19)
  {
    var t := BinderTable();
    assert Class(ValidationFactoryContract) in t[19].1;
  }

  lemma BroadcastFactoryListing()
    ensures ListedOnlyAt(BinderTable(), Class(BroadcastFactoryContract), 1)
  {
    var t := BinderTable();
    assert Class(BroadcastFactoryContract) in t[1].1;
  }

  lemma BroadcasterListing()
    ensures ListedOnlyAt(BinderTable(), Class(BroadcasterContract), 1)
  {
    var t := BinderTable();
    assert Class(BroadcasterContract) in t[1].1;
  }

  lemma AuthKeyListing()
    ensures ListedOnlyAt(BinderTable(), Key("auth"), 0)
  {
    var t := BinderTable();
    assert Key("auth") in t[0].1;
  }

  lemma GateListing()
    ensures ListedOnlyAt(BinderTable(), Class(GateContract), 0)
  {
    var t := BinderTable();
    assert Class(GateContract) in t[0].1;
  }

  lemma LastCacheEntry()
    ensures LastIndex(BinderTable(), Cache) == 3
  {
    var t := BinderTable();
    assert t[3].0 == Cache;
    assert forall k | 3 < k < |t| :: t[k].0 != Cache;
  }

  lemma CacheFactoryListing()
    ensures ListedOnlyAt(BinderTable(), Class(CacheFactoryContract), 3)
  {
    var t := BinderTable();
    assert Class(CacheFactoryContract) in t[3].1;
  }

  lemma CacheRepositoryListing()
    ensures ListedOnlyAt(BinderTable(), Class(CacheRepositoryContract), 3)
  {
    var t := BinderTable();
    assert Class(CacheRepositoryContract) in t[3].1;
  }

  lemma AuthManagerListing()
    ensures ListedOnlyAt(BinderTable(), Class(AuthManager), 0)
  {
    var t := BinderTable();
    assert Class(AuthManager) in t[0].1;
  }

  lemma GuardListing()
    ensures ListedOnlyAt(BinderTable(), Class(GuardContract), 0)
  {
    var t := BinderTable();
    assert Class(GuardContract) in t[0].1;
  }

  /**
   * `'validator'` is never made available: the array literal repeats the
   * key 'registerValidatorBindings', so its first value is overwritten by
   * the second and only the Validation Factory contract is mapped.
   */
  lemma ValidatorKeyIsNotAvailable(m: map<Abstract, Binder>)
    ensures Key("validator") in AvailableAfterRegistration(m) <==> Key("validator") in m
  {
    FirstValidatorEntryIsOverwritten();
    ValidatorKeyListing();
    LiteralUnbound(BinderTable(), m, Key("validator"), 18);
  }

  /** The Validation Factory contract is resolved through the Validator binder, which registers only 'validator'. */
  lemma ValidationFactoryUsesValidatorBinder(m: map<Abstract, Binder>)
    ensures var r := AvailableAfterRegistration(m);
      && Class(ValidationFactoryContract) in r && r[Class(ValidationFactoryContract)] == Validator
      && Class(ValidationFactoryContract) !in SingletonKeys(Validator)
  {
    LastValidatorEntry();
    ValidationFactoryListing();
    LiteralBinding(BinderTable(), m, Class(ValidationFactoryContract), Validator, 19);
  }

  /** The broadcasting Factory contract is resolved through the Broadcasting binder. */
  lemma BroadcastFactoryUsesBroadcastingBinder(m: map<Abstract, Binder>)
    ensures var r := AvailableAfterRegistration(m);
      Class(BroadcastFactoryContract) in r && r[Class(BroadcastFactoryContract)] == Broadcasting
  {
    LastBroadcastingEntry();
    BroadcastFactoryListing();
    LiteralBinding(BinderTable(), m, Class(BroadcastFactoryContract), Broadcasting, 1);
  }

  /** The Broadcaster contract is resolved through the Broadcasting binder. */
  lemma BroadcasterUsesBroadcastingBinder(m: map<Abstract, Binder>)
    ensures var r := AvailableAfterRegistration(m);
      Class(BroadcasterContract) in r && r[Class(BroadcasterContract)] == Broadcasting
  {
    LastBroadcastingEntry();
    BroadcasterListing();
    LiteralBinding(BinderTable(), m, Class(BroadcasterContract), Broadcasting, 1);
  }

  /**
   * The Broadcasting binder registers the contract names resolved relative
   * to the file's namespace, so neither contract it is reached through is
   * registered by it.
   */
  lemma BroadcastingRegistersRelativeNames()
    ensures forall k | k in SingletonKeys(Broadcasting) :: FileNamespace <= AbstractName(k)
    ensures forall c | Class(c) in SingletonKeys(Broadcasting) :: false
    ensures forall c | RelativeClass(c) in SingletonKeys(Broadcasting) ::
      AbstractName(RelativeClass(c)) != AbstractName(Class(c))
  {
    forall c | RelativeClass(c) in SingletonKeys(Broadcasting)
      ensures AbstractName(RelativeClass(c)) != AbstractName(Class(c))
    {
      RelativeNameDiffers(c);
    }
  }

  /** 'auth' and the Gate contract are both resolved through the Auth binder, which registers both. */
  lemma AuthKeysUseAuthBinder(m: map<Abstract, Binder>)
    ensures var r := AvailableAfterRegistration(m);
      && Key("auth") in r && r[Key("auth")] == Auth && Key("auth") in SingletonKeys(Auth)
      && Class(GateContract) in r && r[Class(GateContract)] == Auth && Class(GateContract) in SingletonKeys(Auth)
  {
    LastAuthEntry();
    AuthKeyListing();
    LiteralBinding(BinderTable(), m, Key("auth"), Auth, 0);
    GateListing();
    LiteralBinding(BinderTable(), m, Class(GateContract), Auth, 0);
  }

  /**
   * The Cache Factory and Repository contracts are resolved through the
   * Cache binder, which registers only 'cache' and 'cache.store'.
   */
  lemma CacheContractsUseCacheBinder(m: map<Abstract, Binder>)
    ensures var r := AvailableAfterRegistration(m);
      && Class(CacheFactoryContract) in r && r[Class(CacheFactoryContract)] == Cache
      && Class(CacheRepositoryContract) in r && r[Class(CacheRepositoryContract)] == Cache
      && Class(CacheFactoryContract) !in SingletonKeys(Cache)
      && Class(CacheRepositoryContract) !in SingletonKeys(Cache)
  {
    LastCacheEntry();
    CacheFactoryListing();
    LiteralBinding(BinderTable(), m, Class(CacheFactoryContract), Cache, 3);
    CacheRepositoryListing();
    LiteralBinding(BinderTable(), m, Class(CacheRepositoryContract), Cache, 3);
  }

  /**
   * AuthManager and the Guard contract are resolved through the Auth
   * binder, which registers neither of them.
   */
  lemma AuthManagerAndGuardUseAuthBinder(m: map<Abstract, Binder>)
    ensures var r := AvailableAfterRegistration(m);
      && Class(AuthManager) in r && r[Class(AuthManager)] == Auth
      && Class(GuardContract) in r && r[Class(GuardContract)] == Auth
      && Class(AuthManager) !in SingletonKeys(Auth)
      && Class(GuardContract) !in SingletonKeys(Auth)
  {
    LastAuthEntry();
    AuthManagerListing();
    LiteralBinding(BinderTable(), m, Class(AuthManager), Auth, 0);
    GuardListing();
    LiteralBinding(BinderTable(), m, Class(GuardContract), Auth, 0);
  }

  // ---------------------------------------------------------------------
  // The state of the trait

  class ContainerBindings {
    /** Abstract => binder method. */
    var availableBindings: map<Abstract, Binder>
    /** The binder methods that have run (`$ranServiceBinders[$method] = true`). */
    var ranServiceBinders: set<Binder>
    /** The binder methods in the order they ran (bookkeeping for the proofs; the trait keeps no such list). */
    ghost var binderCalls: seq<Binder>
    /** The keys the binders that ran registered with `singleton`. */
    var singletons: set<Abstract>

    /** Each binder runs at most once, and what ran is what was recorded. */
    ghost predicate Valid()
      reads this
    {
      && (forall i, j | 0 <= i < j < |binderCalls| :: binderCalls[i] != binderCalls[j])
      && ranServiceBinders == (set b | b in binderCalls)
      && singletons == KeysBoundBy(binderCalls)
    }

    constructor ()
      ensures Valid()
      ensures availableBindings == map[] && ranServiceBinders == {} && binderCalls == []
    {
      availableBindings := map[];
      ranServiceBinders := {};
      binderCalls := [];
      singletons := {};
    }

    /** Point every abstract of the evaluated table at its binder. */
    method RegisterContainerBindings()
      modifies this
      ensures availableBindings == AvailableAfterRegistration(old(availableBindings))
      ensures ranServiceBinders == old(ranServiceBinders) && binderCalls == old(binderCalls)
      ensures singletons == old(singletons)
    {
      PointAll(ArrayLiteral(BinderTable()));
    }

    /** The outer loop of registerContainerBindings, over the evaluated literal. */
    method PointAll(table: seq<Entry>)
      modifies this
      ensures availableBindings == Assign(old(availableBindings), table)
      ensures ranServiceBinders == old(ranServiceBinders) && binderCalls == old(binderCalls)
      ensures singletons == old(singletons)
    {
      var i := 0;
      while i < |table|
        invariant 0 <= i <= |table|
        invariant availableBindings == Assign(old(availableBindings), table[..i])
        invariant ranServiceBinders == old(ranServiceBinders) && binderCalls == old(binderCalls)
        invariant singletons == old(singletons)
      {
        var (binder, abstracts) := table[i];
        PointAt(binder, abstracts);
        assert table[..i + 1][..i] == table[..i];
        i := i + 1;
      }
      assert table[..i] == table;
    }

    /** The inner loop of registerContainerBindings: `$this->availableBindings[$abstract] = $method` for each abstract. */
    method PointAt(binder: Binder, abstracts: seq<Abstract>)
      modifies this
      ensures availableBindings == AssignAbstracts(old(availableBindings), binder, abstracts)
      ensures ranServiceBinders == old(ranServiceBinders) && binderCalls == old(binderCalls)
      ensures singletons == old(singletons)
    {
      var k := 0;
      while k < |abstracts|
        invariant 0 <= k <= |abstracts|
        invariant availableBindings == AssignAbstracts(old(availableBindings), binder, abstracts[..k])
        invariant ranServiceBinders == old(ranServiceBinders) && binderCalls == old(binderCalls)
        invariant singletons == old(singletons)
      {
        availableBindings := availableBindings[abstracts[k] := binder];
        assert abstracts[..k + 1][..k] == abstracts[..k];
        k := k + 1;
      }
      assert abstracts[..k] == abstracts;
    }

    /** Run a binder: register its keys. */
    method RunBinder(b: Binder)
      modifies this
      ensures singletons == old(singletons) + KeySet(b)
      ensures availableBindings == old(availableBindings)
      ensures ranServiceBinders == old(ranServiceBinders) && binderCalls == old(binderCalls)
    {
      var keys := SingletonKeys(b);
      var i := 0;
      while i < |keys|
        invariant 0 <= i <= |keys|
        invariant singletons == old(singletons) + set k | k in keys[..i]
        invariant availableBindings == old(availableBindings)
        invariant ranServiceBinders == old(ranServiceBinders) && binderCalls == old(binderCalls)
      {
        singletons := singletons + {keys[i]};
        assert keys[..i + 1] == keys[..i] + [keys[i]];
        i := i + 1;
      }
      assert keys[..i] == keys;
    }

    /** Run the binder of an available abstract `key`, unless it has already run. */
    method MakeWithBinding(key: Abstract)
      requires Valid() && Canonical(key)
      modifies this
      ensures Valid()
      ensures availableBindings == old(availableBindings)
      ensures key in old(availableBindings) && old(availableBindings)[key] !in old(ranServiceBinders) ==>
        var b := old(availableBindings)[key];
        && binderCalls == old(binderCalls) + [b]
        && ranServiceBinders == old(ranServiceBinders) + {b}
        && singletons == old(singletons) + KeySet(b)
      ensures !(key in old(availableBindings) && old(availableBindings)[key] !in old(ranServiceBinders)) ==>
        binderCalls == old(binderCalls) && ranServiceBinders == old(ranServiceBinders) && singletons == old(singletons)
    {
      if key in availableBindings && availableBindings[key] !in ranServiceBinders {
        var b := availableBindings[key];
        RunBinder(b);
        ranServiceBinders := ranServiceBinders + {b};
        binderCalls := binderCalls + [b];
      }
    }
  }

  // ---------------------------------------------------------------------
  // Resolving through a fresh table

  /** Asking for 'auth' and then for the Gate contract runs the Auth binder once, which binds both. */
  method ResolveAuthThenGate() returns (ghost calls: seq<Binder>, bound: set<Abstract>)
    ensures calls == [Auth]
    ensures Key("auth") in bound && Class(GateContract) in bound
  {
    var c := new ContainerBindings();
    c.RegisterContainerBindings();
    AuthKeysUseAuthBinder(map[]);
    PlainKeyCanonical("auth");
    c.MakeWithBinding(Key("auth"));
    c.MakeWithBinding(Class(GateContract));
    calls := c.binderCalls;
    bound := c.singletons;
  }

  /** Asking for 'validator' runs no binder: the key never made it into the table. */
  method ResolveValidator() returns (ghost calls: seq<Binder>, bound: set<Abstract>)
    ensures calls == [] && bound == {}
  {
    var c := new ContainerBindings();
    c.RegisterContainerBindings();
    ValidatorKeyIsNotAvailable(map[]);
    PlainKeyCanonical("validator");
    c.MakeWithBinding(Key("validator"));
    calls := c.binderCalls;
    bound := c.singletons;
  }

  /** The Validator binder registers 'validator' and not the Validation Factory contract. */
  lemma ValidatorBinderKeys()
    ensures Key("validator") in KeySet(Validator) && Class(ValidationFactoryContract) !in KeySet(Validator)
  {
    assert SingletonKeys(Validator) == [Key("validator")];
  }

  /** Asking for the Validation Factory contract runs the Validator binder, which binds 'validator' but not the contract. */
  method ResolveValidationFactory() returns (ghost calls: seq<Binder>, bound: set<Abstract>)
    ensures calls == [Validator]
    ensures Key("validator") in bound && Class(ValidationFactoryContract) !in bound
  {
    var c := new ContainerBindings();
    c.RegisterContainerBindings();
    ValidationFactoryUsesValidatorBinder(map[]);
    c.MakeWithBinding(Class(ValidationFactoryContract));
    ValidatorBinderKeys();
    calls := c.binderCalls;
    bound := c.singletons;
  }

  /** The Broadcasting binder registers the namespace-relative names and neither contract. */
  lemma BroadcastingBinderKeys()
    ensures RelativeClass(BroadcastFactoryContract) in KeySet(Broadcasting)
    ensures Class(BroadcastFactoryContract) !in KeySet(Broadcasting)
    ensures Class(BroadcasterContract) !in KeySet(Broadcasting)
  {
    assert SingletonKeys(Broadcasting) == [RelativeClass(BroadcastFactoryContract), RelativeClass(BroadcasterContract)];
  }

  /** Asking for the broadcasting Factory contract runs the Broadcasting binder, which does not bind that contract. */
  method ResolveBroadcastFactory() returns (ghost calls: seq<Binder>, bound: set<Abstract>)
    ensures calls == [Broadcasting]
    ensures Class(BroadcastFactoryContract) !in bound && Class(BroadcasterContract) !in bound
    ensures RelativeClass(BroadcastFactoryContract) in bound
  {
    var c := new ContainerBindings();
    c.RegisterContainerBindings();
    BroadcastFactoryUsesBroadcastingBinder(map[]);
    c.MakeWithBinding(Class(BroadcastFactoryContract));
    BroadcastingBinderKeys();
    calls := c.binderCalls;
    bound := c.singletons;
  }
}
