# Password provisioner of linux-cluster-test

This project models the password provisioner that the cluster's Vagrantfile
includes. It has two parts:

- **The generator.** `$CHARS` is a 72-character alphabet: the digits, the
  upper- and lower-case letters, `#` to `&`, and `:` to `?`.
  `random_password(length = 12)` appends one character of that alphabet for
  each value of the inclusive range `0..length`. A default call therefore
  returns 13 characters.
- **The load-or-create cache.** The script creates the directory
  `vagrant_pwd` if it is missing. If `$ALWAYS_CHANGE_ALL_PASSWORD` is set, it
  deletes the three cache files. Then, for the hacluster account (always),
  the fence account (only with `$FENCE_AGENT`) and the vagrant user (only
  with `$SECURE_VAGRANT_USER_PWD`), it does one of two things. If the
  account's file exists, it reads the file. Otherwise it generates a
  password, writes it to the file and prints a line announcing it.

Module `Passwords` (`passwords.dfy`) holds the alphabet and the generator.
`RandomPassword` is a method whose loop builds the password one character at
a time, as the source does. Nothing here is random. The values
`rand($CHARS.size)` would return are passed in as a sequence of indices, so
the password is fully determined by the draws it uses.

Module `Provisioning` (`provisioning.dfy`) holds the cache. A `World` value
has four parts:

- whether the directory exists;
- the files, as a map from path to contents;
- the draws `rand` still has to return;
- the notices printed so far.

Each step of the script has a function that states what it does to a `World`:

- `WithDirectory` creates the directory;
- `Cleared` is the reset step;
- `Loaded` is load-or-create for one account;
- `Provisioned` is the whole script.

Class `Provisioner` holds the same state in mutable fields. Each of its
methods performs one step in place, and its postcondition says the new state
is what that step's function gives. The three global flags become a `Config`
value. The three global passwords become the returned `Secrets` value. A
password whose flag is off is `None`, meaning the script does not assign it.

The source comment on `random_password` says it returns "12 (or length)"
characters. The code returns `length + 1`. The model follows the code: every
generated password here has 13 characters.

## Model

| member | source | states |
|---|---|---|
| `Passwords.Chars` | vagrant_include/vagrant_passwords.rb:11 | `$CHARS`: the concatenation of the five ranges, in the source's order |
| `Passwords.CharRange` | vagrant_include/vagrant_passwords.rb:11 | a range such as `('0'..'9').to_a` lists `hi - lo + 1` characters with successive code points starting at `lo`, or none when `lo` comes after `hi` |
| `Passwords.AlphabetSize` | vagrant_include/vagrant_passwords.rb:11 | `$CHARS` has 72 characters; `#`..`&` contributes 4 and `:`..`?` contributes 6 |
| `Passwords.AlphabetDistinct` | vagrant_include/vagrant_passwords.rb:11 | no character occurs twice in `$CHARS` |
| `Passwords.AlphabetMembership` | vagrant_include/vagrant_passwords.rb:11 | a character is in `$CHARS` if and only if it lies in one of the five ranges |
| `Passwords.RandomPassword` | vagrant_include/vagrant_passwords.rb:13-19 | the password has `length + 1` characters (none when `length` is negative), and its k-th character is the alphabet entry at the k-th draw |
| `Passwords.Spelled` | vagrant_include/vagrant_passwords.rb:14-17 | the password the loop builds from a sequence of draws, one alphabet entry per draw; the specification `Provisioning.Loaded` uses in place of the method |
| `Passwords.SpelledInAlphabet` | vagrant_include/vagrant_passwords.rb:16 | every character of a generated password lies in one of the alphabet's five ranges |
| `Provisioning.WithDirectory` | vagrant_include/vagrant_passwords.rb:20 | the state after `Dir.mkdir`: the directory exists, the files, draws and notices are unchanged |
| `Provisioning.Cleared` | vagrant_include/vagrant_passwords.rb:21-25 | the state after the reset step: the three cache paths are removed when the reset flag is set; the properties are stated by `ClearedRemovesOnlyCache` |
| `Provisioning.LoadedIf` | vagrant_include/vagrant_passwords.rb:34-53 | the flag guards: load-or-create when the account's flag is set, otherwise no secret and no change |
| `Provisioning.Provisioned` | vagrant_include/vagrant_passwords.rb:20-53 | the whole script as one function: directory, reset, then hacluster, fence and vagrant in that order; its properties are stated by the lemmas below |
| `Provisioning.Loaded` | vagrant_include/vagrant_passwords.rb:27-33 | after load-or-create, the account's file exists and holds the returned secret; every other file is unchanged; the directory still exists; a miss uses exactly 13 draws and a hit uses none |
| `Provisioning.ClearedRemovesOnlyCache` | vagrant_include/vagrant_passwords.rb:21-25 | with the reset flag, none of the three cache files is left and every other file is unchanged; without it, nothing changes |
| `Provisioning.LoadedFromCache` | vagrant_include/vagrant_passwords.rb:27-28 | on a cache hit, the secret is the file's contents verbatim; nothing is written, drawn or printed |
| `Provisioning.LoadedFresh` | vagrant_include/vagrant_passwords.rb:29-33 | on a cache miss, the secret has 13 characters, all from the alphabet, and is spelled by the next 13 draws; the file maps to exactly that secret; exactly one notice announcing it is added |
| `Provisioning.LoadedIdempotent` | vagrant_include/vagrant_passwords.rb:27-33 | loading the same account a second time returns the same secret and changes nothing |
| `Provisioning.ProvisionedStores` | vagrant_include/vagrant_passwords.rb:20-53 | after a run, the directory exists and each enabled account's file holds its secret; a disabled account's secret is unassigned; files outside the cache are unchanged |
| `Provisioning.ProvisionedIdempotent` | vagrant_include/vagrant_passwords.rb:20-53 | a second run without the reset flag gives the same secrets and the same files; it uses no draws and prints nothing |
| `Provisioning.ProvisionedKeepsCache` | vagrant_include/vagrant_passwords.rb:27-53 | without the reset flag, a cached file keeps its contents whatever the other files and flags are, and an enabled account's secret is those contents |
| `Provisioning.DisabledAccountNotRead` | vagrant_include/vagrant_passwords.rb:34-53 | the run never reads a disabled account's file: two stores that differ only in that file give the same secrets, notices and draws, and still differ only there |
| `Provisioning.DisabledAccountNotWritten` | vagrant_include/vagrant_passwords.rb:34-53 | the run never writes a disabled account's file: it is absent after a reset and unchanged otherwise |
| `Provisioning.LoadedRespects` | vagrant_include/vagrant_passwords.rb:27-33 | load-or-create of one account does not depend on another account's file and does not change it |
| `Provisioning.ResetRegenerates` | vagrant_include/vagrant_passwords.rb:21-53 | with the reset flag, every enabled password is regenerated: hacluster from the first 13 draws, fence (when enabled) from the next 13, vagrant (when enabled) from the 13 after those already used; the earlier notices are kept and exactly one new notice per enabled account follows them; each secret is 13 characters long |
| `Provisioning.FirstRunScenario` | vagrant_include/vagrant_passwords.rb:20-33 | starting with no files, whether or not the directory exists, and all flags off, only the hacluster file is created; it holds the new hacluster secret, which has 13 alphabet characters and is announced once |
| `Provisioning.CachedScenario` | vagrant_include/vagrant_passwords.rb:27-28 | with a cached hacluster file holding "abc" and no reset, the secret is "abc" and nothing is generated, written or printed |
| `Provisioning.Provisioner.MakeDirectory` | vagrant_include/vagrant_passwords.rb:20 | the directory exists afterwards and nothing else changes |
| `Provisioning.Provisioner.Reset` | vagrant_include/vagrant_passwords.rb:21-25 | deleting each existing cache file one at a time leaves the state that `Cleared` describes |
| `Provisioning.Provisioner.LoadOrCreate` | vagrant_include/vagrant_passwords.rb:27-33 | reading the file, or generating, writing and announcing a password in place, gives the secret and the state that `Loaded` describes |
| `Provisioning.Provisioner.Provision` | vagrant_include/vagrant_passwords.rb:20-53 | the whole script run step by step on the fields gives the secrets and the state that `Provisioned` describes |

## Left out

- `rand`: the draws are an input sequence, and the model says nothing about uniformity or about two passwords differing. A finite sequence can run out, so `CanLoad` and `CanProvision` require enough draws for every cache miss. Ruby's `rand` never runs out.
- File system details: `File.file?` and `File.exist?` behave differently when the path is a directory. The model treats both as "the key is in the map". The deprecated `File.exists?` check is modelled as the directory flag alone. A plain file named `vagrant_pwd` is not modelled: with one, line 20 skips `Dir.mkdir` and the first `File.write` raises.
- `World`: the directory flag and the file map are independent, so the model admits files under `vagrant_pwd/` while the directory is absent, which no disk can hold. No lemma depends on that state being excluded; `CachedScenario` and `FirstRunScenario` hold for either value of the flag.
- Errors: permission errors, disk errors and write failures propagate uncaught in the source and are not modelled. `CanLoad` requires the directory to exist, which the script always ensures before it writes.
- Console output: each `puts` line is a `Created` notice carrying the account, the path and the password. The exact message text is not modelled.
- Global variables: a password whose flag is off keeps whatever value its global held before the script ran. The model returns `None` for it.
- `random_password` with an argument that is not an integer, such as a Float range bound, is not modelled: the length is an `int`. The script only ever calls it with the default 12.
- The rest of the Vagrantfile (virtual machines, networking, cluster configuration) is not part of this model.
