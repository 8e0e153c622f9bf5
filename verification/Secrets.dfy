/** Secret fields of nested documents: encryption at rest, masking for readers, and
    merging a masked document back. */
module Secrets {
  import opened Wrappers
  import opened Workflows

  datatype Json =
    | Null
    | Bool(b: bool)
    | Num(n: int)
    | Str(s: string)
    | List(items: seq<Json>)
    | Dict(fields: map<string, Json>)

  // ---------------------------------------------------------------- which names are secret

  const EXACT: set<string> := {
    "password", "passwd", "secret", "secret_key", "secretkey", "api_key",
    "apikey", "token", "passphrase", "private_key", "credential", "credentials",
    "client_secret", "auth_token", "pin", "pin_key", "kek", "zmk", "tmk",
    "nkey_seed", "creds", "user_jwt",
    "mak", "mac_key", "cvk", "pvk", "mdk", "imk", "bdk", "zpk", "session_key",
    "dsn"}

  const SUFFIXES: seq<string> := [
    "_password", "_secret", "_token", "_api_key", "_apikey",
    "_passphrase", "_private_key", "_credential"]

  const DENIED: set<string> := {"public_key", "key", "keys", "key_id", "kid", "primary_key"}

  predicate EndsWith(s: string, suffix: string) {
    |suffix| <= |s| && s[|s| - |suffix|..] == suffix
  }

  predicate IsSecretKey(name: string, parent: Option<string>) {
    var n := Lower(name);
    if parent.Some? && Lower(parent.value) == "mac" && n == "key" then true
    else if n in DENIED then false
    else if n in EXACT then true
    else exists i :: 0 <= i < |SUFFIXES| && EndsWith(n, SUFFIXES[i])
  }

  // ---------------------------------------------------------------- walking a document

  type Path = seq<Hop>

  datatype Hop = Key(name: string) | Index(i: nat)

  /** Rewrite every string of a document. `secret` says whether the enclosing key is
      a secret name, `parent` is that key, `at` where in the document we are; lists
      pass their key on to their items. */
  function Walk(d: Json, secret: bool, parent: Option<string>, at: Path, f: (string, bool, Path) -> string): Json
    decreases d
  {
    match d
    case Dict(fields) =>
      Dict(map k | k in fields :: Walk(fields[k], IsSecretKey(k, parent), Some(k), at + [Key(k)], f))
    case List(items) =>
      List(seq(|items|, i requires 0 <= i < |items| => Walk(items[i], secret, parent, at + [Index(i)], f)))
    case Str(s) => Str(f(s, secret, at))
    case _ => d
  }

  /** The part of a document a path leads to. */
  function At(d: Json, p: Path): Option<Json> {
    if p == [] then Some(d)
    else
      match p[0]
      case Key(k) => if d.Dict? && k in d.fields then At(d.fields[k], p[1..]) else None
      case Index(i) => if d.List? && i < |d.items| then At(d.items[i], p[1..]) else None
  }

  /** The keys a path passes, without the list positions. */
  function KeysOf(p: Path): seq<string> {
    if p == [] then []
    else KeysOf(p[..|p| - 1]) + match p[|p| - 1] case Key(k) => [k] case Index(_) => []
  }

  /** Is a string at this place secret? Decided by the nearest key above it, read
      together with the key above that one. */
  predicate SecretAt(p: Path) {
    var ks := KeysOf(p);
    ks != [] && IsSecretKey(ks[|ks| - 1], if |ks| > 1 then Some(ks[|ks| - 2]) else None)
  }

  function ParentAt(p: Path): Option<string> {
    var ks := KeysOf(p);
    if ks == [] then None else Some(ks[|ks| - 1])
  }

  lemma KeyHop(at: Path, k: string)
    ensures SecretAt(at + [Key(k)]) == IsSecretKey(k, ParentAt(at))
    ensures ParentAt(at + [Key(k)]) == Some(k)
  {
    assert (at + [Key(k)])[..|at|] == at;
    assert KeysOf(at + [Key(k)]) == KeysOf(at) + [k];
  }

  lemma IndexHop(at: Path, i: nat)
    ensures SecretAt(at + [Index(i)]) == SecretAt(at)
    ensures ParentAt(at + [Index(i)]) == ParentAt(at)
  {
    assert (at + [Index(i)])[..|at|] == at;
    assert KeysOf(at + [Index(i)]) == KeysOf(at);
  }

  /** A walk rewrites the strings and nothing else, each according to its place. */
  lemma {:induction false} WalkAt(d: Json, at: Path, p: Path, f: (string, bool, Path) -> string)
    ensures var e := Walk(d, SecretAt(at), ParentAt(at), at, f);
            match At(d, p)
            case None => At(e, p).None?
            case Some(Str(s)) => At(e, p) == Some(Str(f(s, SecretAt(at + p), at + p)))
            case Some(x) => At(e, p).Some? && !At(e, p).value.Str?
    decreases |p|
  {
    if p == [] {
      assert at + p == at;
    } else {
      assert (at + [p[0]]) + p[1..] == at + p;
      match p[0]
      case Key(k) =>
        if d.Dict? && k in d.fields {
          KeyHop(at, k);
          WalkAt(d.fields[k], at + [Key(k)], p[1..], f);
        }
      case Index(i) =>
        if d.List? && i < |d.items| {
          IndexHop(at, i);
          WalkAt(d.items[i], at + [Index(i)], p[1..], f);
        }
    }
  }

  // ---------------------------------------------------------------- encryption at rest

  const PREFIX := "enc:v1:"

  /** The cipher: a fresh token for each place, and what a token opens to. */
  datatype Box = Box(enabled: bool, seal: (string, Path) -> string, unseal: string -> Option<string>)

  /** Tokens open to what was sealed, and are longer than it. */
  ghost predicate Sound(box: Box) {
    && (forall s, at :: box.unseal(box.seal(s, at)) == Some(s))
    && (forall t :: box.unseal(t).Some? ==> |box.unseal(t).value| < |t|)
  }

  predicate Tagged(s: string) {
    PREFIX <= s
  }

  function Encrypt(box: Box, s: string, at: Path): string {
    if !box.enabled || Tagged(s) then s else PREFIX + box.seal(s, at)
  }

  /** None is the cipher's invalid-token error. */
  function Decrypt(box: Box, s: string): Option<string> {
    if !Tagged(s) || !box.enabled then Some(s) else box.unseal(s[|PREFIX|..])
  }

  function EncryptAt(box: Box): (string, bool, Path) -> string {
    (s, secret, at) => if secret then Encrypt(box, s, at) else s
  }

  function EncryptDoc(box: Box, d: Json): Json {
    if !box.enabled then d else Walk(d, false, None, [], EncryptAt(box))
  }

  predicate AllStrings(d: Json, p: string -> bool) {
    match d
    case Dict(fields) => forall k :: k in fields ==> AllStrings(fields[k], p)
    case List(items) => forall i :: 0 <= i < |items| ==> AllStrings(items[i], p)
    case Str(s) => p(s)
    case _ => true
  }

  function DecryptAt(box: Box): (string, bool, Path) -> string {
    (s, secret, at) => if Decrypt(box, s).Some? then Decrypt(box, s).value else s
  }

  /** Opens every tagged string, whatever its key; one bad token fails the document. */
  function DecryptDoc(box: Box, d: Json): Option<Json> {
    if AllStrings(d, s => Decrypt(box, s).Some?) then Some(Walk(d, false, None, [], DecryptAt(box))) else None
  }

  lemma {:induction false} RoundTripWalk(box: Box, d: Json, secret: bool, parent: Option<string>, at: Path)
    requires Sound(box) && box.enabled
    ensures var e := Walk(d, secret, parent, at, EncryptAt(box));
            (AllStrings(e, s => Decrypt(box, s).Some?) && Walk(e, secret, parent, at, DecryptAt(box)) == d)
            <==> AllStrings(d, s => !Tagged(s))
    decreases d
  {
    var e := Walk(d, secret, parent, at, EncryptAt(box));
    var back := Walk(e, secret, parent, at, DecryptAt(box));
    match d
    case Dict(fields) =>
      forall k | k in fields
        ensures (AllStrings(e.fields[k], s => Decrypt(box, s).Some?) && back.fields[k] == fields[k])
                <==> AllStrings(fields[k], s => !Tagged(s))
      {
        RoundTripWalk(box, fields[k], IsSecretKey(k, parent), Some(k), at + [Key(k)]);
      }
      assert back == d <==> forall k :: k in fields ==> back.fields[k] == fields[k];
    case List(items) =>
      forall i | 0 <= i < |items|
        ensures (AllStrings(e.items[i], s => Decrypt(box, s).Some?) && back.items[i] == items[i])
                <==> AllStrings(items[i], s => !Tagged(s))
      {
        RoundTripWalk(box, items[i], secret, parent, at + [Index(i)]);
      }
      assert back == d <==> forall i :: 0 <= i < |items| ==> back.items[i] == items[i];
    case Str(s) =>
      if !Tagged(s) && secret {
        assert (PREFIX + box.seal(s, at))[|PREFIX|..] == box.seal(s, at);
      }
    case _ =>
  }

  lemma {:induction false} DisabledWalk(box: Box, d: Json, secret: bool, parent: Option<string>, at: Path)
    requires !box.enabled
    ensures AllStrings(d, s => Decrypt(box, s).Some?) && Walk(d, secret, parent, at, DecryptAt(box)) == d
    decreases d
  {
    match d
    case Dict(fields) =>
      forall k | k in fields
        ensures AllStrings(fields[k], s => Decrypt(box, s).Some?)
        ensures Walk(fields[k], IsSecretKey(k, parent), Some(k), at + [Key(k)], DecryptAt(box)) == fields[k]
      {
        DisabledWalk(box, fields[k], IsSecretKey(k, parent), Some(k), at + [Key(k)]);
      }
    case List(items) =>
      forall i | 0 <= i < |items|
        ensures AllStrings(items[i], s => Decrypt(box, s).Some?)
        ensures Walk(items[i], secret, parent, at + [Index(i)], DecryptAt(box)) == items[i]
      {
        DisabledWalk(box, items[i], secret, parent, at + [Index(i)]);
      }
    case _ =>
  }

  /** What is stored comes back: exactly for the documents that hold no string
      already tagged as ciphertext, or when encryption is off. */
  lemma EncryptionRoundTrips(box: Box, d: Json)
    requires Sound(box)
    ensures DecryptDoc(box, EncryptDoc(box, d)) == Some(d) <==> !box.enabled || AllStrings(d, s => !Tagged(s))
  {
    if box.enabled {
      RoundTripWalk(box, d, false, None, []);
    } else {
      DisabledWalk(box, d, false, None, []);
    }
  }

  /** Two walks in a row are one walk with both rewritings. */
  lemma {:induction false} WalkTwice(d: Json, secret: bool, parent: Option<string>, at: Path,
                                     f: (string, bool, Path) -> string, g: (string, bool, Path) -> string)
    requires forall s, secret, at :: g(f(s, secret, at), secret, at) == f(s, secret, at)
    ensures Walk(Walk(d, secret, parent, at, f), secret, parent, at, g) == Walk(d, secret, parent, at, f)
    decreases d
  {
    match d
    case Dict(fields) =>
      forall k | k in fields
        ensures var e := Walk(fields[k], IsSecretKey(k, parent), Some(k), at + [Key(k)], f);
                Walk(e, IsSecretKey(k, parent), Some(k), at + [Key(k)], g) == e
      {
        WalkTwice(fields[k], IsSecretKey(k, parent), Some(k), at + [Key(k)], f, g);
      }
    case List(items) =>
      forall i | 0 <= i < |items|
        ensures var e := Walk(items[i], secret, parent, at + [Index(i)], f);
                Walk(e, secret, parent, at + [Index(i)], g) == e
      {
        WalkTwice(items[i], secret, parent, at + [Index(i)], f, g);
      }
    case _ =>
  }

  /** Encrypting again, even under another key, never wraps twice. */
  lemma EncryptIsIdempotent(box: Box, other: Box, d: Json)
    requires box.enabled
    ensures EncryptDoc(other, EncryptDoc(box, d)) == EncryptDoc(box, d)
  {
    WalkTwice(d, false, None, [], EncryptAt(box), EncryptAt(other));
  }

  // ---------------------------------------------------------------- masking

  const MASK := "\U{2022}\U{2022}\U{2022}\U{2022}"

  predicate Masked(s: string) {
    MASK <= s
  }

  /** `fingerprint` is a short hash; the mask shows it and nothing else. */
  function MaskAt(fingerprint: string -> string): (string, bool, Path) -> string {
    (s, secret, at) => if secret && s != "" && !Masked(s) then MASK + fingerprint(s) else s
  }

  function MaskDoc(fingerprint: string -> string, d: Json): Json {
    Walk(d, false, None, [], MaskAt(fingerprint))
  }

  /** Wherever `incoming` holds a mask and `stored` a string, the string is kept. */
  function MergeMasked(incoming: Json, stored: Option<Json>): Json
    decreases incoming
  {
    if incoming.Dict? && stored.Some? && stored.value.Dict? then
      Dict(map k | k in incoming.fields ::
        MergeMasked(incoming.fields[k], if k in stored.value.fields then Some(stored.value.fields[k]) else None))
    else if incoming.List? && stored.Some? && stored.value.List? then
      List(seq(|incoming.items|, i requires 0 <= i < |incoming.items| =>
        MergeMasked(incoming.items[i], if i < |stored.value.items| then Some(stored.value.items[i]) else None)))
    else if incoming.Str? && Masked(incoming.s) && stored.Some? && stored.value.Str? then stored.value
    else incoming
  }

  lemma {:induction false} MergeWalk(fingerprint: string -> string, d: Json, secret: bool, parent: Option<string>, at: Path)
    ensures MergeMasked(Walk(d, secret, parent, at, MaskAt(fingerprint)), Some(d)) == d
    decreases d
  {
    var e := Walk(d, secret, parent, at, MaskAt(fingerprint));
    match d
    case Dict(fields) =>
      forall k | k in fields
        ensures MergeMasked(e.fields[k], Some(fields[k])) == fields[k]
      {
        MergeWalk(fingerprint, fields[k], IsSecretKey(k, parent), Some(k), at + [Key(k)]);
      }
      assert MergeMasked(e, Some(d)).fields == fields;
    case List(items) =>
      forall i | 0 <= i < |items|
        ensures MergeMasked(e.items[i], Some(items[i])) == items[i]
      {
        MergeWalk(fingerprint, items[i], secret, parent, at + [Index(i)]);
      }
      assert MergeMasked(e, Some(d)).items == items;
    case _ =>
  }

  /** A client that sends the masked document back changes nothing. */
  lemma MaskThenMerge(fingerprint: string -> string, d: Json)
    ensures MergeMasked(MaskDoc(fingerprint, d), Some(d)) == d
  {
    MergeWalk(fingerprint, d, false, None, []);
  }

  /** A merge decides each string by its place: a mask over a stored string keeps
      the stored one, everything else the client sent wins. */
  lemma {:induction false} MergeAtPlace(incoming: Json, stored: Option<Json>, p: Path)
    ensures At(incoming, p).Some? && At(incoming, p).value.Str? ==>
              var sent := At(incoming, p).value.s;
              var kept := if stored.Some? then At(stored.value, p) else None;
              At(MergeMasked(incoming, stored), p) ==
              if Masked(sent) && kept.Some? && kept.value.Str? then kept else Some(Str(sent))
    decreases |p|
  {
    if p != [] && At(incoming, p).Some? {
      match p[0]
      case Key(k) =>
        if stored.Some? && stored.value.Dict? {
          MergeAtPlace(incoming.fields[k], if k in stored.value.fields then Some(stored.value.fields[k]) else None, p[1..]);
        }
      case Index(i) =>
        if stored.Some? && stored.value.List? {
          MergeAtPlace(incoming.items[i], if i < |stored.value.items| then Some(stored.value.items[i]) else None, p[1..]);
        }
    }
  }

  lemma MaskTwice(fingerprint: string -> string, s: string, secret: bool, at: Path)
    ensures MaskAt(fingerprint)(MaskAt(fingerprint)(s, secret, at), secret, at) == MaskAt(fingerprint)(s, secret, at)
  {
    var m := MASK + fingerprint(s);
    assert MASK <= m;
    assert Masked(m);
  }

  lemma MaskIsIdempotent(fingerprint: string -> string, d: Json)
    ensures MaskDoc(fingerprint, MaskDoc(fingerprint, d)) == MaskDoc(fingerprint, d)
  {
    var f := MaskAt(fingerprint);
    forall s, secret, at
      ensures f(f(s, secret, at), secret, at) == f(s, secret, at)
    {
      MaskTwice(fingerprint, s, secret, at);
    }
    WalkTwice(d, false, None, [], f, f);
  }

  /** In a masked document every non-empty string at a secret place is a mask, and
      every other string is as it was. */
  lemma SecretsAreMasked(fingerprint: string -> string, d: Json, p: Path)
    requires At(d, p).Some? && At(d, p).value.Str?
    ensures var s := At(d, p).value.s;
            var m := At(MaskDoc(fingerprint, d), p);
            && m.Some? && m.value.Str?
            && (SecretAt(p) && s != "" ==> Masked(m.value.s) && (Masked(s) || m.value.s == MASK + fingerprint(s)))
            && (!SecretAt(p) || s == "" ==> m.value.s == s)
  {
    assert KeysOf([]) == [];
    WalkAt(d, [], p, MaskAt(fingerprint));
    assert [] + p == p;
  }
}
