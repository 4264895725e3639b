/**
 * The load-or-create cache of the provisioner: create the directory
 * `vagrant_pwd`, optionally delete the three cached password files, then for
 * each enabled account read its cached password or generate, write and
 * announce a new one.
 *
 * The file system is a map from path to contents plus a flag for the
 * directory; the draws of `rand` are a sequence consumed front to back; the
 * three global flags are a `Config`; the three global passwords are the
 * returned `Secrets`; each console line announcing a new password is a
 * `Created` notice appended to a log.
 */
module Provisioning {
  import opened Passwords

  datatype Option<T> = None | Some(value: T)

  /** The accounts whose passwords are cached, in the order they are handled. */
  datatype Account = HaCluster | FenceCluster | VagrantUser

  type Path = string

  /** The cache file of each account, inside the directory `vagrant_pwd`. */
  function PathOf(a: Account): Path {
    match a
    case HaCluster => "vagrant_pwd/.hacluster_pwd"
    case FenceCluster => "vagrant_pwd/.fencecluster_pwd"
    case VagrantUser => "vagrant_pwd/.vagrant_pwd"
  }

  const CachePaths: set<Path> := {PathOf(HaCluster), PathOf(FenceCluster), PathOf(VagrantUser)}

  /** The process-wide flags: `$ALWAYS_CHANGE_ALL_PASSWORD`, `$FENCE_AGENT`
      and `$SECURE_VAGRANT_USER_PWD`. */
  datatype Config = Config(resetAll: bool, fenceAgent: bool, secureVagrantUser: bool)

  /** Whether the account's password is read or created at all. */
  predicate IsEnabled(cfg: Config, a: Account) {
    match a
    case HaCluster => true
    case FenceCluster => cfg.fenceAgent
    case VagrantUser => cfg.secureVagrantUser
  }

  /** The console line announcing a newly created password. */
  datatype Notice = Created(account: Account, path: Path, secret: string)

  /** What the provisioner can observe and change: whether the directory
      exists, the files and their contents, the draws `rand` has still to
      return, and the notices printed so far. */
  datatype World = World(dirExists: bool, files: map<Path, string>, entropy: seq<int>, log: seq<Notice>)

  /** The globals `$hacluster_pwd`, `$fencecluster_pwd`, `$vagrant_user_pwd`;
      `None` for one the script leaves unassigned. */
  datatype Secrets = Secrets(hacluster: string, fencecluster: Option<string>, vagrantUser: Option<string>)

  function SecretOf(s: Secrets, a: Account): Option<string> {
    match a
    case HaCluster => Some(s.hacluster)
    case FenceCluster => s.fencecluster
    case VagrantUser => s.vagrantUser
  }

  datatype Load = Load(secret: string, world: World)
  datatype Step = Step(secret: Option<string>, world: World)
  datatype Run = Run(secrets: Secrets, world: World)

  /** Two file maps that hold the same entries at every path other than `p`. */
  ghost predicate AgreeExcept(f: map<Path, string>, g: map<Path, string>, p: Path) {
    forall k :: k != p ==> (k in f <==> k in g) && (k in f && k in g ==> f[k] == g[k])
  }

  /** Creating the directory when it is absent. */
  function WithDirectory(w: World): World {
    w.(dirExists := true)
  }

  /** Deleting the three cache files when the reset flag is set. */
  function Cleared(w: World, cfg: Config): World {
    if cfg.resetAll then w.(files := w.files - CachePaths) else w
  }

  /** What loading the account's password needs: the directory exists (the
      write would fail otherwise) and, on a cache miss, `rand` has a full
      default-length password's worth of draws left. */
  predicate CanLoad(w: World, a: Account) {
    && w.dirExists
    && Draws(w.entropy)
    && (PathOf(a) !in w.files ==> GeneratedLength <= |w.entropy|)
  }

  /** Load-or-create for one account: the cached contents when the file
      exists, otherwise a new default-length password, written to the file
      and announced. */
  function Loaded(w: World, a: Account): (r: Load)
    requires CanLoad(w, a)
    ensures PathOf(a) in r.world.files && r.world.files[PathOf(a)] == r.secret
    ensures AgreeExcept(r.world.files, w.files, PathOf(a))
    ensures r.world.dirExists && Draws(r.world.entropy)
    ensures |w.entropy| == |r.world.entropy| + (if PathOf(a) in w.files then 0 else GeneratedLength)
  {
    var path := PathOf(a);
    if path in w.files then
      Load(w.files[path], w)
    else
      var p := Spelled(w.entropy[..GeneratedLength]);
      Load(p, w.(files := w.files[path := p],
                 entropy := w.entropy[GeneratedLength..],
                 log := w.log + [Created(a, path, p)]))
  }

  /** Load-or-create for an account that may be switched off by its flag. */
  function LoadedIf(enabled: bool, w: World, a: Account): Step
    requires enabled ==> CanLoad(w, a)
  {
    if enabled then
      var l := Loaded(w, a);
      Step(Some(l.secret), l.world)
    else
      Step(None, w)
  }

  /** Draws one enabled account takes: a full password on a cache miss. */
  function Need(enabled: bool, a: Account, files: map<Path, string>): nat {
    if enabled && PathOf(a) !in files then GeneratedLength else 0
  }

  /** Draws a whole run takes: one password per enabled account whose file is
      missing once the reset step is done. */
  function DrawsNeeded(cfg: Config, w: World): nat {
    var files := Cleared(WithDirectory(w), cfg).files;
    Need(true, HaCluster, files)
    + Need(cfg.fenceAgent, FenceCluster, files)
    + Need(cfg.secureVagrantUser, VagrantUser, files)
  }

  /** `rand` does not run dry during the run. */
  predicate CanProvision(cfg: Config, w: World) {
    Draws(w.entropy) && DrawsNeeded(cfg, w) <= |w.entropy|
  }

  /** The whole script: directory, reset, then the three accounts in order. */
  function Provisioned(cfg: Config, w: World): Run
    requires CanProvision(cfg, w)
  {
    var start := Cleared(WithDirectory(w), cfg);
    var ha := Loaded(start, HaCluster);
    var fence := LoadedIf(cfg.fenceAgent, ha.world, FenceCluster);
    var vagrant := LoadedIf(cfg.secureVagrantUser, fence.world, VagrantUser);
    Run(Secrets(ha.secret, fence.secret, vagrant.secret), vagrant.world)
  }

  /** With the reset flag set, none of the three cache files is left; every
      other file, and everything else, is untouched. Without it nothing
      changes. */
  lemma ClearedRemovesOnlyCache(w: World, cfg: Config)
    ensures cfg.resetAll ==> forall a :: PathOf(a) !in Cleared(w, cfg).files
    ensures !cfg.resetAll ==> Cleared(w, cfg) == w
    ensures forall k :: k !in CachePaths ==>
      (k in Cleared(w, cfg).files <==> k in w.files)
      && (k in w.files ==> Cleared(w, cfg).files[k] == w.files[k])
    ensures Cleared(w, cfg) == w.(files := Cleared(w, cfg).files)
  {
  }

  /** Cache hit: the secret is the file's contents verbatim, unvalidated;
      nothing is written, drawn or printed. */
  lemma LoadedFromCache(w: World, a: Account)
    requires CanLoad(w, a) && PathOf(a) in w.files
    ensures Loaded(w, a).secret == w.files[PathOf(a)]
    ensures Loaded(w, a).world == w
  {
  }

  /** Cache miss: the secret is a fresh 13-character password over the
      alphabet, spelled by the next draws; the file now holds exactly it,
      no other file changes, and exactly one notice announces it. */
  lemma LoadedFresh(w: World, a: Account)
    requires CanLoad(w, a) && PathOf(a) !in w.files
    ensures var r := Loaded(w, a);
      && |r.secret| == GeneratedLength
      && (forall i :: 0 <= i < GeneratedLength ==> InAlphabet(r.secret[i]))
      && r.secret == Spelled(w.entropy[..GeneratedLength])
      && r.world.files == w.files[PathOf(a) := r.secret]
      && r.world.log == w.log + [Created(a, PathOf(a), r.secret)]
      && r.world.entropy == w.entropy[GeneratedLength..]
  {
    SpelledInAlphabet(w.entropy[..GeneratedLength]);
  }

  /** Loading the same account again returns the same secret and changes
      nothing. */
  lemma LoadedIdempotent(w: World, a: Account)
    requires CanLoad(w, a)
    ensures CanLoad(Loaded(w, a).world, a)
    ensures Loaded(Loaded(w, a).world, a) == Loaded(w, a)
  {
  }

  /** After a run the directory exists, each enabled account's file holds
      its secret, a disabled account's secret is left unassigned, and no
      file outside the cache changes. */
  lemma ProvisionedStores(cfg: Config, w: World)
    requires CanProvision(cfg, w)
    ensures var r := Provisioned(cfg, w);
      && r.world.dirExists
      && (forall a :: IsEnabled(cfg, a) ==>
            SecretOf(r.secrets, a).Some?
            && PathOf(a) in r.world.files
            && r.world.files[PathOf(a)] == SecretOf(r.secrets, a).value)
      && (forall a :: !IsEnabled(cfg, a) ==> SecretOf(r.secrets, a) == None)
      && (forall k :: k !in CachePaths ==>
            (k in r.world.files <==> k in w.files)
            && (k in w.files ==> r.world.files[k] == w.files[k]))
  {
    var start := Cleared(WithDirectory(w), cfg);
    var ha := Loaded(start, HaCluster);
    var fence := LoadedIf(cfg.fenceAgent, ha.world, FenceCluster);
    var vagrant := LoadedIf(cfg.secureVagrantUser, fence.world, VagrantUser);
    var f := vagrant.world.files;
    assert AgreeExcept(fence.world.files, ha.world.files, PathOf(FenceCluster));
    assert AgreeExcept(f, fence.world.files, PathOf(VagrantUser));
    forall a | IsEnabled(cfg, a)
      ensures SecretOf(Provisioned(cfg, w).secrets, a).Some?
      ensures PathOf(a) in f && f[PathOf(a)] == SecretOf(Provisioned(cfg, w).secrets, a).value
    {
      match a
      case HaCluster => assert f[PathOf(a)] == ha.secret;
      case FenceCluster => assert f[PathOf(a)] == fence.secret.value;
      case VagrantUser =>
    }
    forall k | k !in CachePaths
      ensures (k in f <==> k in w.files) && (k in w.files ==> f[k] == w.files[k])
    {
      assert k in start.files <==> k in w.files;
    }
  }

  /** Running the script again without the reset flag yields the same
      secrets, leaves the files as they are, draws nothing and prints nothing. */
  lemma ProvisionedIdempotent(cfg: Config, w: World)
    requires CanProvision(cfg, w)
    ensures var r := Provisioned(cfg, w);
      && CanProvision(cfg.(resetAll := false), r.world)
      && Provisioned(cfg.(resetAll := false), r.world) == r
  {
    ProvisionedStores(cfg, w);
  }

  /** Without the reset flag a cached password is stable across runs,
      whatever the other files hold and whichever flags are set: its file
      keeps its contents, and when the account is enabled its secret is
      those contents. */
  lemma ProvisionedKeepsCache(cfg: Config, w: World, a: Account)
    requires !cfg.resetAll && CanProvision(cfg, w) && PathOf(a) in w.files
    ensures var r := Provisioned(cfg, w);
      && PathOf(a) in r.world.files
      && r.world.files[PathOf(a)] == w.files[PathOf(a)]
      && (IsEnabled(cfg, a) ==> SecretOf(r.secrets, a) == Some(w.files[PathOf(a)]))
  {
    var start := Cleared(WithDirectory(w), cfg);
    var ha := Loaded(start, HaCluster);
    var fence := LoadedIf(cfg.fenceAgent, ha.world, FenceCluster);
    var vagrant := LoadedIf(cfg.secureVagrantUser, fence.world, VagrantUser);
    ProvisionedStores(cfg, w);
  }

  /** A disabled account's file is never read: two stores that differ only
      in that file give the same secrets, notices and draws, and stores that
      still differ only there. */
  lemma DisabledAccountNotRead(cfg: Config, w1: World, w2: World, a: Account)
    requires !IsEnabled(cfg, a)
    requires CanProvision(cfg, w1) && CanProvision(cfg, w2)
    requires w1.dirExists == w2.dirExists && w1.entropy == w2.entropy && w1.log == w2.log
    requires AgreeExcept(w1.files, w2.files, PathOf(a))
    ensures var r1, r2 := Provisioned(cfg, w1), Provisioned(cfg, w2);
      && r1.secrets == r2.secrets
      && r1.world.log == r2.world.log
      && r1.world.entropy == r2.world.entropy
      && AgreeExcept(r1.world.files, r2.world.files, PathOf(a))
  {
    var p := PathOf(a);
    var s1, s2 := Cleared(WithDirectory(w1), cfg), Cleared(WithDirectory(w2), cfg);
    assert AgreeExcept(s1.files, s2.files, p);
    var ha1, ha2 := Loaded(s1, HaCluster), Loaded(s2, HaCluster);
    LoadedRespects(s1, s2, HaCluster, p);
    var fence1 := LoadedIf(cfg.fenceAgent, ha1.world, FenceCluster);
    var fence2 := LoadedIf(cfg.fenceAgent, ha2.world, FenceCluster);
    if cfg.fenceAgent {
      LoadedRespects(ha1.world, ha2.world, FenceCluster, p);
    }
    if cfg.secureVagrantUser {
      LoadedRespects(fence1.world, fence2.world, VagrantUser, p);
    }
  }

  /** Loading one account from two stores that differ only at another
      account's path `p` gives the same secret and stores that still differ
      only at `p`. */
  lemma LoadedRespects(w1: World, w2: World, a: Account, p: Path)
    requires p != PathOf(a)
    requires CanLoad(w1, a) && CanLoad(w2, a)
    requires w1.dirExists == w2.dirExists && w1.entropy == w2.entropy && w1.log == w2.log
    requires AgreeExcept(w1.files, w2.files, p)
    ensures Loaded(w1, a).secret == Loaded(w2, a).secret
    ensures Loaded(w1, a).world.log == Loaded(w2, a).world.log
    ensures Loaded(w1, a).world.entropy == Loaded(w2, a).world.entropy
    ensures Loaded(w1, a).world.dirExists == Loaded(w2, a).world.dirExists
    ensures AgreeExcept(Loaded(w1, a).world.files, Loaded(w2, a).world.files, p)
  {
    assert PathOf(a) in w1.files <==> PathOf(a) in w2.files;
  }

  /** A disabled account's file is never written: afterwards it is as the
      reset step left it, absent after a reset and unchanged otherwise. */
  lemma DisabledAccountNotWritten(cfg: Config, w: World, a: Account)
    requires !IsEnabled(cfg, a)
    requires CanProvision(cfg, w)
    ensures var f := Provisioned(cfg, w).world.files;
      && (cfg.resetAll ==> PathOf(a) !in f)
      && (!cfg.resetAll ==> (PathOf(a) in f <==> PathOf(a) in w.files))
      && (!cfg.resetAll && PathOf(a) in w.files ==> f[PathOf(a)] == w.files[PathOf(a)])
  {
  }

  /** With the reset flag set every enabled password is regenerated: each is
      spelled by the next unused draws, and exactly one notice per enabled
      account is printed. */
  lemma ResetRegenerates(cfg: Config, w: World)
    requires cfg.resetAll
    requires CanProvision(cfg, w)
    ensures var r := Provisioned(cfg, w);
      var n := (if cfg.fenceAgent then 1 else 0) + (if cfg.secureVagrantUser then 1 else 0);
      var m := if cfg.fenceAgent then 1 else 0;
      && r.secrets.hacluster == Spelled(w.entropy[..GeneratedLength])
      && (cfg.fenceAgent ==>
            r.secrets.fencecluster == Some(Spelled(w.entropy[GeneratedLength..2 * GeneratedLength])))
      && (cfg.secureVagrantUser ==>
            r.secrets.vagrantUser
            == Some(Spelled(w.entropy[GeneratedLength * (1 + m)..GeneratedLength * (2 + m)])))
      && |r.world.log| == |w.log| + 1 + n
      && r.world.log[..|w.log|] == w.log
      && r.world.log[|w.log|] == Created(HaCluster, PathOf(HaCluster), r.secrets.hacluster)
      && r.world.entropy == w.entropy[GeneratedLength * (1 + n)..]
      && (forall a :: IsEnabled(cfg, a) ==>
            |SecretOf(r.secrets, a).value| == GeneratedLength
            && Created(a, PathOf(a), SecretOf(r.secrets, a).value) in r.world.log[|w.log|..])
  {
    var start := Cleared(WithDirectory(w), cfg);
    var ha := Loaded(start, HaCluster);
    LoadedFresh(start, HaCluster);
    var fence := LoadedIf(cfg.fenceAgent, ha.world, FenceCluster);
    var m := if cfg.fenceAgent then 1 else 0;
    if cfg.fenceAgent {
      LoadedFresh(ha.world, FenceCluster);
      assert ha.world.entropy[..GeneratedLength] == w.entropy[GeneratedLength..2 * GeneratedLength];
    }
    assert fence.world.entropy == w.entropy[GeneratedLength * (1 + m)..];
    var vagrant := LoadedIf(cfg.secureVagrantUser, fence.world, VagrantUser);
    if cfg.secureVagrantUser {
      LoadedFresh(fence.world, VagrantUser);
      assert fence.world.entropy[..GeneratedLength]
        == w.entropy[GeneratedLength * (1 + m)..GeneratedLength * (2 + m)];
    }
    var n := m + (if cfg.secureVagrantUser then 1 else 0);
    assert vagrant.world.entropy == w.entropy[GeneratedLength * (1 + n)..];
    assert |vagrant.world.log| == |w.log| + 1 + n;
    assert vagrant.world.log[|w.log|] == Created(HaCluster, PathOf(HaCluster), ha.secret);
    var notices := vagrant.world.log[|w.log|..];
    assert notices[0] == Created(HaCluster, PathOf(HaCluster), ha.secret);
    if cfg.fenceAgent {
      assert notices[1] == Created(FenceCluster, PathOf(FenceCluster), fence.secret.value);
    }
    if cfg.secureVagrantUser {
      assert notices[n] == Created(VagrantUser, PathOf(VagrantUser), vagrant.secret.value);
    }
  }

  /** An empty store, with or without the directory `vagrant_pwd`, and all
      flags off: only the hacluster file is created; it holds the new secret,
      13 characters of the alphabet, announced once. */
  lemma FirstRunScenario(dirExists: bool, entropy: seq<int>)
    requires Draws(entropy) && GeneratedLength <= |entropy|
    ensures var w := World(dirExists, map[], entropy, []);
      var cfg := Config(false, false, false);
      && CanProvision(cfg, w)
      && var r := Provisioned(cfg, w);
      && r.world.files.Keys == {PathOf(HaCluster)}
      && r.world.files[PathOf(HaCluster)] == r.secrets.hacluster
      && |r.secrets.hacluster| == GeneratedLength
      && (forall i :: 0 <= i < GeneratedLength ==> InAlphabet(r.secrets.hacluster[i]))
      && r.secrets.fencecluster == None && r.secrets.vagrantUser == None
      && r.world.log == [Created(HaCluster, PathOf(HaCluster), r.secrets.hacluster)]
  {
    var w := World(dirExists, map[], entropy, []);
    var cfg := Config(false, false, false);
    assert DrawsNeeded(cfg, w) == GeneratedLength;
    LoadedFresh(WithDirectory(w), HaCluster);
    ProvisionedStores(cfg, w);
  }

  /** A cached hacluster file holding "abc" and no reset: the secret is
      "abc", nothing is generated, written or printed. */
  lemma CachedScenario(dirExists: bool, entropy: seq<int>)
    requires Draws(entropy)
    ensures var w := World(dirExists, map[PathOf(HaCluster) := "abc"], entropy, []);
      var cfg := Config(false, false, false);
      && CanProvision(cfg, w)
      && var r := Provisioned(cfg, w);
      && r.secrets.hacluster == "abc"
      && r.world == w.(dirExists := true)
  {
  }

  /** The provisioner as a stateful object: each method performs one step of
      the script on the fields and is specified by the step's function. */
  class Provisioner {
    var dirExists: bool
    var files: map<Path, string>
    var entropy: seq<int>
    var log: seq<Notice>

    function State(): World
      reads this
    {
      World(dirExists, files, entropy, log)
    }

    constructor (dirExists: bool, files: map<Path, string>, entropy: seq<int>)
      ensures State() == World(dirExists, files, entropy, [])
    {
      this.dirExists := dirExists;
      this.files := files;
      this.entropy := entropy;
      this.log := [];
    }

    /** `Dir.mkdir("vagrant_pwd")` unless it exists. */
    method MakeDirectory()
      modifies this
      ensures State() == WithDirectory(old(State()))
    {
      if !dirExists {
        dirExists := true;
      }
    }

    /** The reset step: each cache file that exists is deleted. */
    method Reset(cfg: Config)
      modifies this
      ensures State() == Cleared(old(State()), cfg)
    {
      if cfg.resetAll {
        var ha, fence, vagrant := PathOf(HaCluster), PathOf(FenceCluster), PathOf(VagrantUser);
        if ha in files {
          files := files - {ha};
        }
        if fence in files {
          files := files - {fence};
        }
        if vagrant in files {
          files := files - {vagrant};
        }
        assert files == old(files) - CachePaths;
      }
    }

    /** Read the account's file, or generate a password, write it and
      announce it. */
    method LoadOrCreate(a: Account) returns (secret: string)
      requires CanLoad(State(), a)
      modifies this
      ensures Load(secret, State()) == Loaded(old(State()), a)
    {
      var path := PathOf(a);
      if path in files {
        secret := files[path];
      } else {
        secret := RandomPassword(entropy);
        assert secret == Spelled(entropy[..GeneratedLength]);
        entropy := entropy[GeneratedLength..];
        files := files[path := secret];
        log := log + [Created(a, path, secret)];
      }
    }

    /** The whole script, returning the values of the three globals. */
    method Provision(cfg: Config) returns (secrets: Secrets)
      requires CanProvision(cfg, State())
      modifies this
      ensures Run(secrets, State()) == Provisioned(cfg, old(State()))
    {
      MakeDirectory();
      Reset(cfg);
      var ha := LoadOrCreate(HaCluster);
      var fence: Option<string> := None;
      if cfg.fenceAgent {
        var p := LoadOrCreate(FenceCluster);
        fence := Some(p);
      }
      var vagrant: Option<string> := None;
      if cfg.secureVagrantUser {
        var p := LoadOrCreate(VagrantUser);
        vagrant := Some(p);
      }
      secrets := Secrets(ha, fence, vagrant);
    }
  }
}
