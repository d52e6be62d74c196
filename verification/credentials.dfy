/**
 * The credential store (main.js:152-224): one file holding, per provider, the
 * API key either encrypted (`enc`) or in clear (`plain`). Each handler reads
 * the whole file, changes its in-memory copy and writes the whole file back.
 */
module Credentials {
  import opened Wrappers
  import opened Js
  import opened Text
  import opened Providers
  import opened FileSystem

  const ProvidersKey: string := "providers"
  const VersionKey: string := "version"
  const UpdatedKey: string := "updatedAt"
  const EncKey: string := "enc"
  const PlainKey: string := "plain"

  lemma EntryKeyLengths()
    ensures |UpdatedKey| == 9 && |EncKey| == 3 && |PlainKey| == 5
  {
  }

  const InvalidProviderText: string := "provedor_invalido"
  const EmptyKeyText: string := "api_key_vazia"

  /** The error text of a caught failure: `e?.message || 'erro_desconhecido'`. */
  function FailureText(message: string): string
  {
    if message != "" then message else "erro_desconhecido"
  }

  /**
   * The credentials file as readCredentials finds it: absent or unreadable,
   * present but not JSON, or a JSON document.
   */
  datatype Disk = NoFile | Garbage | Doc(content: Value)

  /**
   * The in-memory store readCredentials returns. `Store` is a plain object:
   * its `providers` object, and every other top-level property. `Detached`
   * is a document whose top level, or whose `providers`, is an array: it
   * passes the `typeof === 'object'` guards, but the provider names are not
   * array indices, so lookups find nothing and JSON.stringify drops what is
   * assigned, leaving the document as it was read.
   */
  datatype Store =
    | Store(others: map<string, Value>, providers: map<string, Value>)
    | Detached(content: Value)

  predicate WellFormed(s: Store)
  {
    s.Store? ==> ProvidersKey !in s.others
  }

  /** `{ version: 1, providers: {} }`. */
  function EmptyStore(): Store
  {
    Store(map[VersionKey := Num(1)], map[])
  }

  /**
   * readCredentials: a missing, unreadable or unparsable file, or one that
   * is not an object, reads as the empty store; a missing or non-object
   * `providers` is replaced by `{}`.
   */
  function ReadCredentials(d: Disk): (s: Store)
    ensures WellFormed(s)
    ensures (d.NoFile? || d.Garbage? || (d.Doc? && !IsObjectLike(d.content))) ==> s == EmptyStore()
    ensures s.Detached? ==> d == Doc(s.content)
    ensures s.Detached? <==> d.Doc? && (d.content.Arr? || (d.content.Obj? && Field(d.content, ProvidersKey).Arr?))
    ensures d.Doc? && d.content.Obj? && Field(d.content, ProvidersKey).Obj? ==>
              s == Store(d.content.fields - {ProvidersKey}, Field(d.content, ProvidersKey).fields)
    ensures d.Doc? && d.content.Obj? && !IsObjectLike(Field(d.content, ProvidersKey)) ==>
              s == Store(d.content.fields - {ProvidersKey}, map[])
  {
    match d
    case NoFile => EmptyStore()
    case Garbage => EmptyStore()
    case Doc(obj) =>
      if !IsObjectLike(obj) then EmptyStore()
      else if obj.Arr? then Detached(obj)
      else
        var providers := Field(obj, ProvidersKey);
        if !IsObjectLike(providers) then Store(obj.fields - {ProvidersKey}, map[])
        else if providers.Arr? then Detached(obj)
        else Store(obj.fields - {ProvidersKey}, providers.fields)
  }

  /** The document writeCredentials writes for a store. */
  function Serialize(s: Store): Value
  {
    match s
    case Store(others, providers) => Obj(others[ProvidersKey := Obj(providers)])
    case Detached(content) => content
  }

  /** `store.providers?.[name]`. */
  function Entry(s: Store, name: string): Value
  {
    if s.Store? && name in s.providers then s.providers[name] else Undefined
  }

  /** `store.providers[name] = entry`. */
  function Put(s: Store, name: string, entry: Value): Store
  {
    match s
    case Store(others, providers) => Store(others, providers[name := entry])
    case Detached(_) => s
  }

  /** `delete store.providers[name]`. */
  function Remove(s: Store, name: string): Store
  {
    match s
    case Store(others, providers) => Store(others, providers - {name})
    case Detached(_) => s
  }

  /** The entry credential-get finds for `name` in what the file holds. */
  function Stored(d: Disk, name: string): Value
  {
    Entry(ReadCredentials(d), name)
  }

  /**
   * The platform cipher: `encrypt` is encryptString followed by base64;
   * `decrypt` is base64 decoding followed by decryptString, None when that
   * throws.
   */
  datatype Cipher = Cipher(encrypt: string -> string, decrypt: string -> Option<string>)

  /**
   * What the model assumes of the platform cipher, as a hypothesis: an
   * encrypted value is non-empty text and decrypts back to the original.
   */
  ghost predicate Sound(c: Cipher)
  {
    forall s :: c.encrypt(s) != "" && c.decrypt(c.encrypt(s)) == Some(s)
  }

  /** The entry credential-set writes: a timestamp and exactly one of `enc` or `plain`. */
  function NewEntry(c: Cipher, secret: string, available: bool, now: int): Value
  {
    if available then Obj(map[UpdatedKey := Num(now), EncKey := Str(c.encrypt(secret))])
    else Obj(map[UpdatedKey := Num(now), PlainKey := Str(secret)])
  }

  /** What credential-get makes of an entry: a key ('' when there is none) or a blob it cannot decrypt. */
  datatype Reading = Secret(key: string) | Undecryptable

  /**
   * credential-get on an entry: a non-object is no key; a non-empty string
   * `enc` is decrypted, and decides the outcome even when `plain` is there
   * too; otherwise a non-empty string `plain` is the key; anything else is no key.
   */
  function Classify(c: Cipher, entry: Value): Reading
  {
    if !Truthy(entry) || TypeOf(entry) != "object" then Secret("")
    else
      var enc := Field(entry, EncKey);
      if Truthy(enc) && TypeOf(enc) == "string" then
        match c.decrypt(enc.s)
        case Some(key) => Secret(key)
        case None => Undecryptable
      else
        var plain := Field(entry, PlainKey);
        if Truthy(plain) && TypeOf(plain) == "string" then Secret(plain.s) else Secret("")
  }

  /** The file after a successful credential-set of `secret` (already trimmed) for `name`. */
  function AfterSet(d: Disk, c: Cipher, name: string, secret: string, available: bool, now: int): Disk
  {
    Doc(Serialize(Put(ReadCredentials(d), name, NewEntry(c, secret, available, now))))
  }

  /** The file after credential-get has deleted the undecryptable entry of `name`. */
  function AfterHeal(d: Disk, name: string): Disk
  {
    Doc(Serialize(Remove(ReadCredentials(d), name)))
  }

  /** Reading back a file written from a plain-object store gives that store. */
  lemma ReadSerialized(s: Store)
    requires WellFormed(s) && s.Store?
    ensures ReadCredentials(Doc(Serialize(s))) == s
  {
    var doc := s.others[ProvidersKey := Obj(s.providers)];
    assert Field(Obj(doc), ProvidersKey) == Obj(s.providers);
    assert doc - {ProvidersKey} == s.others;
  }

  /** Writing back what was read and reading it again changes nothing. */
  lemma RereadIsStable(d: Disk)
    ensures ReadCredentials(Doc(Serialize(ReadCredentials(d)))) == ReadCredentials(d)
  {
    var s := ReadCredentials(d);
    if s.Store? {
      ReadSerialized(s);
    }
  }

  /**
   * Round trip: after credential-set of a non-empty trimmed key, credential-get
   * finds exactly that key, encrypted or not, given a sound cipher.
   */
  lemma SetThenGetRoundTrip(d: Disk, c: Cipher, p: Provider, secret: string, available: bool, now: int)
    requires ReadCredentials(d).Store?
    requires secret != ""
    requires available ==> Sound(c)
    ensures Classify(c, Stored(AfterSet(d, c, Name(p), secret, available, now), Name(p))) == Secret(secret)
  {
    var s := Put(ReadCredentials(d), Name(p), NewEntry(c, secret, available, now));
    ReadSerialized(s);
    var e := NewEntry(c, secret, available, now);
    assert Stored(AfterSet(d, c, Name(p), secret, available, now), Name(p)) == e;
    if available {
      assert Field(e, EncKey) == Str(c.encrypt(secret));
    } else {
      assert Field(e, EncKey) == Undefined;
      assert Field(e, PlainKey) == Str(secret);
    }
  }

  /** credential-set leaves every other provider's entry, and every other top-level property, as it was. */
  lemma SetKeepsOthers(d: Disk, c: Cipher, name: string, secret: string, available: bool, now: int, other: string)
    requires other != name
    ensures Stored(AfterSet(d, c, name, secret, available, now), other) == Stored(d, other)
    ensures ReadCredentials(d).Store? ==>
              ReadCredentials(AfterSet(d, c, name, secret, available, now)).others == ReadCredentials(d).others
  {
    var s := Put(ReadCredentials(d), name, NewEntry(c, secret, available, now));
    if s.Store? {
      ReadSerialized(s);
    } else {
      RereadIsStable(d);
    }
  }

  /**
   * The entry credential-set persists holds the timestamp and exactly one
   * of `enc` (when encryption is available) or `plain` (the trimmed key).
   */
  lemma SetStoresOneForm(d: Disk, c: Cipher, name: string, secret: string, available: bool, now: int)
    requires ReadCredentials(d).Store?
    ensures var e := Stored(AfterSet(d, c, name, secret, available, now), name);
      && e.Obj?
      && e.fields.Keys == {UpdatedKey, if available then EncKey else PlainKey}
      && (EncKey in e.fields <==> available)
      && (PlainKey in e.fields <==> !available)
      && e.fields[UpdatedKey] == Num(now)
      && (available ==> e.fields[EncKey] == Str(c.encrypt(secret)))
      && (!available ==> e.fields[PlainKey] == Str(secret))
  {
    var s := Put(ReadCredentials(d), name, NewEntry(c, secret, available, now));
    ReadSerialized(s);
  }

  /**
   * Self-healing: once the entry of `name` is deleted and the file
   * rewritten, a later credential-get finds no key there and nothing else
   * has changed.
   */
  lemma HealForgetsOnlyThatEntry(d: Disk, c: Cipher, name: string, other: string)
    ensures Stored(AfterHeal(d, name), name) == Undefined
    ensures Classify(c, Stored(AfterHeal(d, name), name)) == Secret("")
    ensures other != name ==> Stored(AfterHeal(d, name), other) == Stored(d, other)
  {
    var s := Remove(ReadCredentials(d), name);
    if s.Store? {
      ReadSerialized(s);
    } else {
      RereadIsStable(d);
    }
  }

  /** A missing, unreadable or non-object file reads as the empty store: no key for anyone. */
  lemma MissingFileHasNoKeys(d: Disk, c: Cipher, name: string)
    requires d.NoFile? || d.Garbage? || (d.Doc? && !IsObjectLike(d.content))
    ensures ReadCredentials(d) == EmptyStore()
    ensures Classify(c, Stored(d, name)) == Secret("")
  {
  }

  /** A non-empty `enc` decides the reading, even when a `plain` key is there too. */
  lemma EncTakesPrecedence(c: Cipher, fields: map<string, Value>, blob: string)
    requires EncKey in fields && fields[EncKey] == Str(blob) && blob != ""
    ensures Classify(c, Obj(fields)) == if c.decrypt(blob).Some? then Secret(c.decrypt(blob).value) else Undecryptable
  {
  }

  /** An empty `enc` or `plain` falls through to no key. */
  lemma EmptyFieldsMeanNoKey(c: Cipher, fields: map<string, Value>)
    requires EncKey !in fields || fields[EncKey] == Str("")
    requires PlainKey !in fields || fields[PlainKey] == Str("")
    ensures Classify(c, Obj(fields)) == Secret("")
  {
  }

  /**
   * A file whose top level, or whose `providers`, is an array passes the
   * object guard, so credential-set reports success yet writes the file back
   * unchanged, and credential-get finds no key there, before or after.
   */
  lemma ArrayProvidersLoseTheKey(d: Disk, c: Cipher, name: string, secret: string, available: bool, now: int)
    requires d.Doc? && (d.content.Arr? || (d.content.Obj? && Field(d.content, ProvidersKey).Arr?))
    ensures AfterSet(d, c, name, secret, available, now) == d
    ensures Classify(c, Stored(d, name)) == Secret("")
  {
  }

  /** What a failed write leaves: the old file, or a truncated one that no longer parses. */
  function AfterFault(d: Disk, fault: WriteFault): Disk
  {
    if fault.truncated then Garbage else d
  }

  /** A write that fails part-way loses every stored key, not just the one being written. */
  lemma TruncatedWriteLosesEveryKey(d: Disk, c: Cipher, fault: WriteFault, name: string)
    requires fault.truncated
    ensures ReadCredentials(AfterFault(d, fault)) == EmptyStore()
    ensures Classify(c, Stored(AfterFault(d, fault), name)) == Secret("")
  {
  }

  /** A handler call that rewrites the file, with its write succeeding. */
  datatype Step =
    | SetStep(name: string, secret: string, available: bool, now: int)
    | HealStep(name: string)

  /** The file after one step. */
  function Apply(d: Disk, c: Cipher, step: Step): Disk
  {
    match step
    case SetStep(name, secret, available, now) => AfterSet(d, c, name, secret, available, now)
    case HealStep(name) => AfterHeal(d, name)
  }

  /** The file after a history of steps, oldest first. */
  function Run(d: Disk, c: Cipher, steps: seq<Step>): Disk
    decreases |steps|
  {
    if steps == [] then d else Run(Apply(d, c, steps[0]), c, steps[1..])
  }

  /** A provider that no step names keeps its entry, through any history. */
  lemma {:induction false} RunKeepsUntouched(d: Disk, c: Cipher, steps: seq<Step>, other: string)
    requires forall i :: 0 <= i < |steps| ==> steps[i].name != other
    ensures Stored(Run(d, c, steps), other) == Stored(d, other)
    decreases |steps|
  {
    if steps != [] {
      match steps[0] {
        case SetStep(name, secret, available, now) =>
          SetKeepsOthers(d, c, name, secret, available, now, other);
        case HealStep(name) =>
          HealForgetsOnlyThatEntry(d, c, name, other);
      }
      RunKeepsUntouched(Apply(d, c, steps[0]), c, steps[1..], other);
    }
  }

  /** A file that reads as a plain-object store still does after any history. */
  lemma {:induction false} RunKeepsStore(d: Disk, c: Cipher, steps: seq<Step>)
    requires ReadCredentials(d).Store?
    ensures ReadCredentials(Run(d, c, steps)).Store?
    decreases |steps|
  {
    if steps != [] {
      var s := match steps[0]
        case SetStep(name, secret, available, now) => Put(ReadCredentials(d), name, NewEntry(c, secret, available, now))
        case HealStep(name) => Remove(ReadCredentials(d), name);
      ReadSerialized(s);
      RunKeepsStore(Apply(d, c, steps[0]), c, steps[1..]);
    }
  }

  /** A file held as a detached document is never changed, whatever history follows. */
  lemma {:induction false} DetachedNeverChanges(d: Disk, c: Cipher, steps: seq<Step>)
    requires ReadCredentials(d).Detached?
    ensures Run(d, c, steps) == d
    decreases |steps|
  {
    if steps != [] {
      assert Apply(d, c, steps[0]) == d;
      DetachedNeverChanges(Apply(d, c, steps[0]), c, steps[1..]);
    }
  }

  /**
   * The last credential-set for a provider wins: whatever steps for other
   * providers follow, credential-get returns the key it stored.
   */
  lemma LastSetWins(d: Disk, c: Cipher, p: Provider, secret: string, available: bool, now: int, later: seq<Step>)
    requires ReadCredentials(d).Store?
    requires secret != ""
    requires available ==> Sound(c)
    requires forall i :: 0 <= i < |later| ==> later[i].name != Name(p)
    ensures Classify(c, Stored(Run(d, c, [SetStep(Name(p), secret, available, now)] + later), Name(p))) == Secret(secret)
  {
    var steps := [SetStep(Name(p), secret, available, now)] + later;
    assert steps[1..] == later;
    var after := AfterSet(d, c, Name(p), secret, available, now);
    assert Run(d, c, steps) == Run(after, c, later);
    SetThenGetRoundTrip(d, c, p, secret, available, now);
    RunKeepsUntouched(after, c, later, Name(p));
  }

  /**
   * credential-set's entry, built as the handler builds it: the timestamp,
   * then one form added and the other deleted.
   */
  method BuildEntry(c: Cipher, secret: string, available: bool, now: int) returns (entry: Value)
    ensures entry == NewEntry(c, secret, available, now)
  {
    EntryKeyLengths();
    var fields: map<string, Value> := map[UpdatedKey := Num(now)];
    if available {
      fields := fields[EncKey := Str(c.encrypt(secret))];
      assert PlainKey !in fields;
      fields := fields - {PlainKey};
    } else {
      fields := fields[PlainKey := Str(secret)];
      assert EncKey !in fields;
      fields := fields - {EncKey};
    }
    entry := Obj(fields);
  }

  /** `{ ok: true }` or `{ ok: false, error }`. */
  datatype SetReply = SetOk | SetFailed(error: string)

  /**
   * `{ ok: true, apiKey }`; `{ ok: false, error }` for a provider outside the
   * set; `{ ok: false, apiKey: '', error }` for a caught failure.
   */
  datatype GetReply = GetOk(apiKey: string) | GetRefused(error: string) | GetFailed(error: string)

  /** The credentials file and the platform cipher the handlers use. */
  class CredentialStore {
    const cipher: Cipher
    /** What the credentials file holds. */
    var disk: Disk

    constructor (cipher: Cipher, disk: Disk)
      ensures this.cipher == cipher && this.disk == disk
    {
      this.cipher := cipher;
      this.disk := disk;
    }

    /**
     * writeCredentials: the whole file is rewritten, or, when mkdir or
     * writeFile fails with `writeError`, left as it was or truncated.
     */
    method WriteCredentials(store: Store, writeError: Option<WriteFault>) returns (failure: Option<WriteFault>)
      modifies this
      ensures failure == writeError
      ensures disk == if writeError.None? then Doc(Serialize(store)) else AfterFault(old(disk), writeError.value)
    {
      failure := writeError;
      if writeError.None? {
        disk := Doc(Serialize(store));
      } else if writeError.value.truncated {
        disk := Garbage;
      }
    }

    /**
     * credential-set: refuses a provider outside the set, then a missing or
     * blank key, before touching the file; otherwise stores the trimmed key,
     * encrypted when `available`, under the provider's name.
     */
    method Set(payload: Value, available: bool, now: int, writeError: Option<WriteFault>) returns (r: SetReply)
      modifies this
      ensures var provider, apiKey := Field(payload, "provider"), Field(payload, "apiKey");
        && (FromValue(provider).None? ==> r == SetFailed(InvalidProviderText) && disk == old(disk))
        && (FromValue(provider).Some? && !IsNonEmptyString(apiKey) ==>
              r == SetFailed(EmptyKeyText) && disk == old(disk))
        && (FromValue(provider).Some? && IsNonEmptyString(apiKey) && writeError.Some? ==>
              r == SetFailed(FailureText(writeError.value.message)) && disk == AfterFault(old(disk), writeError.value))
        && (FromValue(provider).Some? && IsNonEmptyString(apiKey) && writeError.None? ==>
              && r == SetOk
              && disk == AfterSet(old(disk), cipher, Name(FromValue(provider).value), Trim(apiKey.s), available, now))
    {
      var provider, apiKey := Field(payload, "provider"), Field(payload, "apiKey");
      var p := FromValue(provider);
      if p.None? {
        return SetFailed(InvalidProviderText);
      }
      if !apiKey.Str? || |Trim(apiKey.s)| == 0 {
        return SetFailed(EmptyKeyText);
      }
      var trimmed := Trim(apiKey.s);
      var store := ReadCredentials(disk);
      var entry := BuildEntry(cipher, trimmed, available, now);
      store := Put(store, Name(p.value), entry);
      var failure := WriteCredentials(store, writeError);
      if failure.Some? {
        return SetFailed(FailureText(failure.value.message));
      }
      r := SetOk;
    }

    /**
     * credential-get: refuses a provider outside the set; otherwise returns
     * the key the entry holds ('' when none), or, when the `enc` blob does
     * not decrypt, deletes that entry, rewrites the file and returns ''.
     */
    method Get(provider: Value, writeError: Option<WriteFault>) returns (r: GetReply)
      modifies this
      ensures FromValue(provider).None? ==> r == GetRefused(InvalidProviderText) && disk == old(disk)
      ensures FromValue(provider).Some? ==>
        var name := Name(FromValue(provider).value);
        match Classify(cipher, Stored(old(disk), name))
        case Secret(key) => r == GetOk(key) && disk == old(disk)
        case Undecryptable =>
          if writeError.None? then r == GetOk("") && disk == AfterHeal(old(disk), name)
          else r == GetFailed(FailureText(writeError.value.message)) && disk == AfterFault(old(disk), writeError.value)
    {
      var p := FromValue(provider);
      if p.None? {
        return GetRefused(InvalidProviderText);
      }
      var name := Name(p.value);
      var store := ReadCredentials(disk);
      var entry := Entry(store, name);
      if !Truthy(entry) || TypeOf(entry) != "object" {
        return GetOk("");
      }
      var enc := Field(entry, EncKey);
      if Truthy(enc) && TypeOf(enc) == "string" {
        var plain := cipher.decrypt(enc.s);
        if plain.Some? {
          return GetOk(plain.value);
        }
        store := Remove(store, name);
        var failure := WriteCredentials(store, writeError);
        if failure.Some? {
          return GetFailed(FailureText(failure.value.message));
        }
        return GetOk("");
      }
      var plain := Field(entry, PlainKey);
      if Truthy(plain) && TypeOf(plain) == "string" {
        return GetOk(plain.s);
      }
      r := GetOk("");
    }
  }

  /**
   * The round trip through the handlers: credential-set of `apiKey`, then
   * credential-get, with both writes succeeding, yields the trimmed key.
   */
  method SetThenGet(store: CredentialStore, p: Provider, apiKey: string, available: bool, now: int)
    returns (reply: GetReply)
    requires ReadCredentials(store.disk).Store?
    requires IsNonEmptyString(Str(apiKey))
    requires available ==> Sound(store.cipher)
    modifies store
    ensures reply == GetOk(Trim(apiKey))
  {
    var payload := Obj(map["provider" := Str(Name(p)), "apiKey" := Str(apiKey)]);
    assert Field(payload, "provider") == Str(Name(p)) && Field(payload, "apiKey") == Str(apiKey);
    ghost var before := store.disk;
    var setReply := store.Set(payload, available, now, None);
    SetThenGetRoundTrip(before, store.cipher, p, Trim(apiKey), available, now);
    reply := store.Get(Str(Name(p)), None);
  }
}
