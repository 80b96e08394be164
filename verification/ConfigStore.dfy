/** Loading and saving the configuration (`ConfigService` in `config_service.py`), with a crash after any disk step. */
module ConfigStore {
  import opened Prelude
  import opened Config

  /** A file's bytes: those that encode a JSON value, and those that do not. */
  datatype Contents = Encoded(document: Value) | Broken(id: nat)

  datatype Source = FromFile | FromBackup | FromDefaults

  /** What becomes of one atomic replacement: it succeeds, or a write error or the end of the process comes before or
      after it. */
  datatype Halt = Passes | StopsBefore | StopsAfter

  /** `Stopped` covers write errors and the end of the process alike. */
  datatype Saving = Refused | Stopped | Saved

  /** How the service reads a file and prepares a document to write, and the configuration it falls back on. */
  datatype Codec = Codec(read: Contents -> Option<AppConfig>, prepare: AppConfig -> Option<Value>, initial: AppConfig)

  /** What the program brings along: its policy and defaults, the secret scan, and what text can be encoded as UTF-8. */
  datatype Setup = Setup(policy: Policy, defaults: Defaults, clean: Value -> bool, encodable: Value -> bool,
                         initial: AppConfig)

  /** `_parse_bytes`. */
  function Read(s: Setup, x: Contents): Option<AppConfig> {
    if x.Encoded? && s.clean(x.document) then Parse(x.document, s.policy, s.defaults) else None
  }

  /** What `save` writes for a configuration that it does not refuse. */
  function Prepare(s: Setup, c: AppConfig): Option<Value> {
    var checked := Parse(Print(c), Preserve, s.defaults);
    if checked.None? then None else Writable(s, Print(checked.value))
  }

  function Writable(s: Setup, v: Value): Option<Value> { if s.clean(v) && s.encodable(v) then Some(v) else None }

  function CodecOf(s: Setup): Codec { Codec(x => Read(s, x), c => Prepare(s, c), s.initial) }

  /** A saved configuration reads back as the policy leaves it. */
  lemma SavedReadsBack(s: Setup, c: AppConfig)
    requires Prepare(s, c).Some?
    ensures InRange(c) && Prepare(s, c) == Some(Print(Reduced(c, Preserve)))
    ensures Read(s, Encoded(Prepare(s, c).value)) ==
            if s.policy.Reject? && !NothingUnknown(Reduced(c, Preserve)) then None
            else Some(Reduced(Reduced(c, Preserve), s.policy))
  {
    ReadBack(c, Preserve, s.defaults);
    ReadBack(Reduced(c, Preserve), s.policy, s.defaults);
    assert InRange(Reduced(c, Preserve));
  }

  /** Under the preserving policy it reads back unchanged. */
  lemma PreservedReadsBack(s: Setup, c: AppConfig)
    requires s.policy.Preserve? && Tidy(c) && Prepare(s, c).Some?
    ensures Prepare(s, c) == Some(Print(c)) && Read(s, Encoded(Print(c))) == Some(c)
  {
    ReadBack(c, Preserve, s.defaults);
    RoundTripIsExact(c, s.defaults);
  }

  /** Under the rejecting policy a configuration with unknown fields is saved and then cannot be read. */
  lemma RejectingSetupCannotReadBack(s: Setup, c: AppConfig)
    requires s.policy.Reject? && Tidy(c) && c.extra != map[] && Prepare(s, c).Some?
    ensures Read(s, Encoded(Prepare(s, c).value)) == None
  {
    SavedReadsBack(s, c);
    Disjoint(c.extra, ROOT);
    var k :| k in c.extra;
    assert k !in ROOT;
  }

  class ConfigService {
    const codec: Codec
    /** What will become of the successive replacements; any script at all. */
    const halts: nat -> Halt
    /** How many there were. */
    var turn: nat
    var file: Option<Contents>
    var backup: Option<Contents>
    /** The corrupt files that were put aside. */
    var aside: seq<Contents>
    /** Every document the main file ever held, by a save or by hand, oldest first. */
    ghost var held: seq<Value>

    /** What every call and every mishap keeps: the backup is readable and once was the main file, and a readable main
        file is the newest document. */
    ghost predicate Valid()
      reads this
    {
      && (backup.Some? ==> codec.read(backup.value).Some? && backup.value.Encoded? && backup.value.document in held)
      && (file.Some? && codec.read(file.value).Some? ==> held != [] && file.value == Encoded(held[|held| - 1]))
    }

    constructor (codec: Codec, halts: nat -> Halt)
      ensures Valid() && this.codec == codec && this.halts == halts && turn == 0
      ensures file == None && backup == None && held == []
    {
      this.codec, this.halts, turn := codec, halts, 0;
      file, backup, aside, held := None, None, [], [];
    }

    /** The file, if it is readable, else the backup, else the defaults; a missing file means the defaults at once. */
    method Load() returns (config: AppConfig, source: Source)
      requires Valid()
      modifies this`aside
      ensures Valid()
      ensures source == FromFile <==> file.Some? && codec.read(file.value).Some?
      ensures source == FromFile ==> held != [] && Some(config) == codec.read(Encoded(held[|held| - 1]))
      ensures source == FromBackup <==> file.Some? && codec.read(file.value).None? && backup.Some?
      ensures source == FromBackup ==>
        backup.value.Encoded? && backup.value.document in held && Some(config) == codec.read(backup.value)
      ensures source == FromDefaults ==> config == codec.initial
    {
      config, source := codec.initial, FromDefaults;
      if file.Some? {
        var parsed := codec.read(file.value);
        if parsed.Some? {
          config, source := parsed.value, FromFile;
        } else {
          PutAside();
          if backup.Some? {
            config, source := codec.read(backup.value).value, FromBackup;
          }
        }
      }
    }

    /** `_preserve_corrupt`: a copy that may fail without consequences. */
    method PutAside()
      requires file.Some?
      modifies this`aside
      ensures aside == old(aside) || aside == old(aside) + [file.value]
    {
      var copied: bool := *;
      if copied { aside := aside + [file.value]; }
    }

    /** `_atomic_write` of the backup. */
    method ReplaceBackup(x: Contents) returns (going: bool)
      requires Valid() && file == Some(x) && codec.read(x).Some?
      modifies this`backup, this`turn
      ensures Valid() && turn == old(turn) + 1 && (going <==> halts(old(turn)).Passes?)
      ensures backup == if halts(old(turn)).StopsBefore? then old(backup) else Some(x)
    {
      if !halts(turn).StopsBefore? { backup := Some(x); }
      going := halts(turn).Passes?;
      turn := turn + 1;
    }

    /** `_atomic_write` of the main file. */
    method ReplaceFile(document: Value) returns (going: bool)
      requires Valid()
      modifies this`file, this`held, this`turn
      ensures Valid() && turn == old(turn) + 1 && (going <==> halts(old(turn)).Passes?)
      ensures if halts(old(turn)).StopsBefore? then Untouched() else Wrote(document)
    {
      if !halts(turn).StopsBefore? { file, held := Some(Encoded(document)), held + [document]; }
      going := halts(turn).Passes?;
      turn := turn + 1;
    }

    twostate predicate Wrote(document: Value)
      reads this
    {
      file == Some(Encoded(document)) && held == old(held) + [document]
    }

    twostate predicate Untouched()
      reads this
    {
      file == old(file) && held == old(held)
    }

    /** The main file is readable, so that saving keeps it as the backup first. */
    ghost predicate KeepsBackup()
      reads this
    {
      file.Some? && codec.read(file.value).Some?
    }

    /** Refused exactly if the configuration cannot be prepared, and completed exactly if neither replacement is
        stopped. */
    method Save(c: AppConfig) returns (outcome: Saving)
      requires Valid()
      modifies this
      ensures Valid()
      ensures outcome == Refused <==> codec.prepare(c).None?
      ensures outcome == Refused ==> Untouched() && backup == old(backup) && aside == old(aside) && turn == old(turn)
      ensures outcome == Saved <==>
        codec.prepare(c).Some? && halts(old(turn)).Passes? && (old(KeepsBackup()) ==> halts(old(turn) + 1).Passes?)
      ensures outcome == Saved ==> Wrote(codec.prepare(c).value)
      ensures outcome == Saved ==> turn == old(turn) + (if old(KeepsBackup()) then 2 else 1)
      ensures outcome == Saved ==> backup == if old(KeepsBackup()) then old(file) else old(backup)
      ensures outcome == Stopped ==>
        (Wrote(codec.prepare(c).value) || Untouched()) && (backup == old(file) || backup == old(backup))
    {
      var document := codec.prepare(c);
      if document.None? { return Refused; }
      var going := true;
      if file.Some? {
        if codec.read(file.value).Some? { going := ReplaceBackup(file.value); } else { PutAside(); }
      }
      if going { going := ReplaceFile(document.value); }
      outcome := if going then Saved else Stopped;
    }

    // What may happen to the main file between calls.

    method Damage(x: Contents)
      requires Valid() && codec.read(x).None?
      modifies this`file
      ensures Valid() && file == Some(x)
    {
      file := Some(x);
    }

    method Edit(document: Value)
      requires Valid()
      modifies this`file, this`held
      ensures Valid() && Wrote(document)
    {
      file, held := Some(Encoded(document)), held + [document];
    }

    method Remove()
      requires Valid()
      modifies this`file
      ensures Valid() && file == None
    {
      file := None;
    }
  }

  /** A call, or something that happens to the main file between calls. */
  datatype Event = Saves(c: AppConfig) | Loads | Damaged(x: Contents) | Edited(document: Value) | Removed

  method Happen(s: ConfigService, e: Event)
    requires s.Valid() && (e.Damaged? ==> s.codec.read(e.x).None?)
    modifies s
    ensures s.Valid()
  {
    match e
    case Saves(c) => var _ := s.Save(c);
    case Loads => var _, _ := s.Load();
    case Damaged(x) => s.Damage(x);
    case Edited(document) => s.Edit(document);
    case Removed => s.Remove();
  }

  /** Any run of saves, loads and mishaps keeps the service's invariant, so every load in it says what `Load`
      promises. */
  method Use(s: ConfigService, events: seq<Event>) returns (config: AppConfig, source: Source)
    requires s.Valid() && forall i :: 0 <= i < |events| && events[i].Damaged? ==> s.codec.read(events[i].x).None?
    modifies s
    ensures s.Valid()
    ensures source == FromFile ==> s.held != [] && Some(config) == s.codec.read(Encoded(s.held[|s.held| - 1]))
    ensures source == FromBackup ==> exists v :: v in s.held && Some(config) == s.codec.read(Encoded(v))
    ensures source == FromDefaults ==> config == s.codec.initial && (s.file.None? || s.backup.None?)
    ensures s.backup.Some? ==> s.codec.read(s.backup.value).Some?
  {
    for i := 0 to |events|
      invariant s.Valid()
    {
      Happen(s, events[i]);
    }
    config, source := s.Load();
    if source == FromBackup { assert s.backup.value.document in s.held; }
  }

  /** What is saved reads back unchanged. */
  ghost predicate KeepsAsIs(k: Codec, c: AppConfig) {
    k.prepare(c).Some? ==> k.read(Encoded(k.prepare(c).value)) == Some(c)
  }

  lemma PreservingCodecKeeps(s: Setup, c: AppConfig)
    requires s.policy.Preserve? && Tidy(c)
    ensures KeepsAsIs(CodecOf(s), c)
  {
    if Prepare(s, c).Some? { PreservedReadsBack(s, c); }
  }

  /** Both configurations are accepted, and nothing stops the replacements that two saves of them make. */
  ghost predicate Unstopped(s: ConfigService, a: AppConfig, b: AppConfig)
    reads s
  {
    && s.codec.prepare(a).Some? && s.codec.prepare(b).Some?
    && forall k: nat :: s.turn <= k < s.turn + (if s.KeepsBackup() then 4 else 3) ==> s.halts(k).Passes?
  }

  /** Two saves and then damage: the second is what the file held, the first is what comes back. If nothing stops the
      replacements, both saves are completed. */
  method RecoverPrevious(s: ConfigService, a: AppConfig, b: AppConfig, damage: Option<Contents>)
    returns (saved: bool, config: AppConfig, source: Source)
    requires s.Valid() && KeepsAsIs(s.codec, a) && KeepsAsIs(s.codec, b)
    requires damage.Some? ==> s.codec.read(damage.value).None?
    modifies s
    ensures s.Valid()
    ensures saved <==> old(Unstopped(s, a, b))
    ensures saved ==> if damage.Some? then source == FromBackup && config == a else source == FromFile && config == b
  {
    saved, config, source := false, s.codec.initial, FromDefaults;
    ghost var t := s.turn;
    var first := s.Save(a);
    if first == Saved {
      assert s.KeepsBackup();
      var second := s.Save(b);
      saved := second == Saved;
      if damage.Some? && saved { s.Damage(damage.value); }
      config, source := s.Load();
    }
  }

  /** With the preserving policy this holds of every configuration whose unknown fields have names of their own. */
  method RecoverPreserved(s: ConfigService, setup: Setup, a: AppConfig, b: AppConfig, damage: Option<Contents>)
    returns (saved: bool, config: AppConfig, source: Source)
    requires s.Valid() && s.codec == CodecOf(setup) && setup.policy.Preserve? && Tidy(a) && Tidy(b)
    requires damage.Some? ==> Read(setup, damage.value).None?
    modifies s
    ensures s.Valid()
    ensures saved <==> old(Unstopped(s, a, b))
    ensures saved ==> if damage.Some? then source == FromBackup && config == a else source == FromFile && config == b
  {
    PreservingCodecKeeps(setup, a);
    PreservingCodecKeeps(setup, b);
    saved, config, source := RecoverPrevious(s, a, b, damage);
  }
}
