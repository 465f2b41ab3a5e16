/** The keyring: key-id tagged envelopes, and what survives key rotations. */
module Keyrings {
  import opened Base

  /** What a key's text stands for: hex is read without regard to letter case. */
  type Material = seq<nat>

  /** The primitives work on key material: reading a key's text (none if it is
      malformed), deriving an id, sealing with a nonce, and opening. */
  datatype Crypto = Crypto(
    material: string -> Option<Material>,
    idOf: Material -> string,
    sealWith: (Material, string, string) -> Option<string>,
    openWith: (Material, string) -> Option<string>)

  function Id(c: Crypto, key: string): Option<string> {
    if c.material(key).None? then None else Some(c.idOf(c.material(key).value))
  }

  function Seal(c: Crypto, key: string, nonce: string, plaintext: string): Option<string> {
    if c.material(key).None? then None else c.sealWith(c.material(key).value, nonce, plaintext)
  }

  function Open(c: Crypto, key: string, ct: string): Option<string> {
    if c.material(key).None? then None else c.openWith(c.material(key).value, ct)
  }

  predicate Contains(s: string, c: char) { exists i :: 0 <= i < |s| && s[i] == c }

  /** Opening inverts sealing under the same material, and an id holds no colon. */
  ghost predicate Sound(c: Crypto) {
    && (forall m, n, p {:trigger c.sealWith(m, n, p)} ::
          c.sealWith(m, n, p).Some? ==> c.openWith(m, c.sealWith(m, n, p).value) == Some(p))
    && (forall m {:trigger c.idOf(m)} :: !Contains(c.idOf(m), ':'))
  }

  // ------------------------------------------------------------- the keyring

  datatype Keyring = Keyring(primary: string, order: seq<string>, keys: map<string, string>)

  function Add(c: Crypto, kr: Keyring, extra: string): Option<Keyring> {
    var id := Id(c, extra);
    if id.None? then None
    else if id.value in kr.keys then Some(kr)
    else Some(kr.(keys := kr.keys[id.value := extra], order := kr.order + [id.value]))
  }

  /** `newKeyring`: the primary key, then each extra whose id is new. */
  function Build(c: Crypto, primary: string, extras: seq<string>): Option<Keyring> {
    if extras == [] then
      var id := Id(c, primary);
      if id.None? then None else Some(Keyring(id.value, [id.value], map[id.value := primary]))
    else
      var kr := Build(c, primary, extras[..|extras| - 1]);
      if kr.None? then None else Add(c, kr.value, extras[|extras| - 1])
  }

  lemma {:induction false} BuildStopsAtError(c: Crypto, primary: string, extras: seq<string>, n: nat)
    requires n <= |extras| && Build(c, primary, extras[..n]).None?
    ensures Build(c, primary, extras).None?
    decreases |extras|
  {
    if n < |extras| {
      assert extras[..|extras| - 1][..n] == extras[..n];
      BuildStopsAtError(c, primary, extras[..|extras| - 1], n);
    } else {
      assert extras[..n] == extras;
    }
  }

  method NewKeyring(c: Crypto, primary: string, extras: seq<string>) returns (r: Option<Keyring>)
    ensures r == Build(c, primary, extras)
  {
    var pid := Id(c, primary);
    if pid.None? {
      BuildStopsAtError(c, primary, extras, 0);
      return None;
    }
    var kr := Keyring(pid.value, [pid.value], map[pid.value := primary]);
    for i := 0 to |extras|
      invariant Build(c, primary, extras[..i]) == Some(kr)
    {
      assert extras[..i + 1][..i] == extras[..i];
      var id := Id(c, extras[i]);
      if id.None? {
        BuildStopsAtError(c, primary, extras, i + 1);
        return None;
      }
      if id.value !in kr.keys {
        kr := Keyring(kr.primary, kr.order + [id.value], kr.keys[id.value := extras[i]]);
      }
    }
    assert extras[..|extras|] == extras;
    r := Some(kr);
  }

  /** What `Previous` returns: the keys after the primary, in order. */
  function PreviousKeys(kr: Keyring): seq<string>
    requires forall i :: 0 <= i < |kr.order| ==> kr.order[i] in kr.keys
  {
    if |kr.order| <= 1 then []
    else seq(|kr.order| - 1, i requires 0 <= i < |kr.order| - 1 => kr.keys[kr.order[i + 1]])
  }

  method Previous(kr: Keyring) returns (prev: seq<string>)
    requires |kr.order| >= 1 && forall i :: 0 <= i < |kr.order| ==> kr.order[i] in kr.keys
    ensures prev == PreviousKeys(kr)
  {
    prev := [];
    for i := 1 to |kr.order|
      invariant prev == PreviousKeys(kr)[..i - 1]
    {
      prev := prev + [kr.keys[kr.order[i]]];
    }
  }

  /** The parts before and after the first colon. */
  function Cut(s: string): Option<(string, string)> {
    if s == "" then None
    else if s[0] == ':' then Some(("", s[1..]))
    else
      var rest := Cut(s[1..]);
      if rest.None? then None else Some(([s[0]] + rest.value.0, rest.value.1))
  }

  function Encrypt(c: Crypto, kr: Keyring, nonce: string, plaintext: string): Option<string>
    requires kr.primary in kr.keys
  {
    var ct := Seal(c, kr.keys[kr.primary], nonce, plaintext);
    if ct.None? then None else Some(kr.primary + ":" + ct.value)
  }

  function Decrypt(c: Crypto, kr: Keyring, envelope: string): Option<string>
    requires kr.primary in kr.keys
  {
    var parts := Cut(envelope);
    if parts.None? then Open(c, kr.keys[kr.primary], envelope)
    else if parts.value.0 !in kr.keys then None
    else Open(c, kr.keys[parts.value.0], parts.value.1)
  }

  // ---------------------------------------------------------- what is held

  /** The first key with this id. */
  function First(c: Crypto, keys: seq<string>, id: string): Option<string> {
    if keys == [] then None
    else
      var earlier := First(c, keys[..|keys| - 1], id);
      if earlier.Some? then earlier
      else if Id(c, keys[|keys| - 1]) == Some(id) then Some(keys[|keys| - 1])
      else None
  }

  /** The first occurrence of each id that the primary does not have. */
  function Deduped(c: Crypto, primary: string, extras: seq<string>): seq<string> {
    if extras == [] then []
    else
      var before, last := extras[..|extras| - 1], extras[|extras| - 1];
      var seen := Id(c, last) == Id(c, primary) || exists i :: 0 <= i < |before| && Id(c, before[i]) == Id(c, last);
      Deduped(c, primary, before) + (if seen then [] else [last])
  }

  predicate Wellformed(kr: Keyring) {
    && |kr.order| >= 1 && kr.order[0] == kr.primary
    && (forall i :: 0 <= i < |kr.order| ==> kr.order[i] in kr.keys)
    && (forall i, j :: 0 <= i < j < |kr.order| ==> kr.order[i] != kr.order[j])
  }

  lemma {:induction false} FirstFinds(c: Crypto, keys: seq<string>, id: string)
    ensures First(c, keys, id).Some? <==> exists i :: 0 <= i < |keys| && Id(c, keys[i]) == Some(id)
    ensures First(c, keys, id).Some? ==> First(c, keys, id).value in keys
                                         && Id(c, First(c, keys, id).value) == Some(id)
  {
    if keys != [] {
      var before := keys[..|keys| - 1];
      FirstFinds(c, before, id);
      assert keys == before + [keys[|keys| - 1]];
      if First(c, before, id).Some? {
        var i :| 0 <= i < |before| && Id(c, before[i]) == Some(id);
        assert keys[i] == before[i];
      }
    }
  }

  /** A built keyring holds, for each id, the first key with that id, primary
      first; its order is well-formed and `Previous` is the extras without
      repeats and without the primary, in their order. */
  lemma {:induction false} BuildHolds(c: Crypto, primary: string, extras: seq<string>, id: string)
    requires Build(c, primary, extras).Some?
    ensures var kr := Build(c, primary, extras).value;
            && Wellformed(kr) && Some(kr.primary) == Id(c, primary) && kr.keys[kr.primary] == primary
            && (id in kr.keys <==> First(c, [primary] + extras, id).Some?)
            && (id in kr.keys ==> First(c, [primary] + extras, id) == Some(kr.keys[id]))
  {
    if extras == [] {
      assert [primary] + extras == [primary];
      assert [primary][..0] == [];
    } else {
      var before, last := extras[..|extras| - 1], extras[|extras| - 1];
      var all := [primary] + extras;
      assert all[..|all| - 1] == [primary] + before;
      BuildHolds(c, primary, before, id);
      BuildHolds(c, primary, before, Id(c, last).value);
    }
  }

  lemma {:induction false} PreviousIsDedupe(c: Crypto, primary: string, extras: seq<string>)
    requires Build(c, primary, extras).Some?
    ensures var kr := Build(c, primary, extras).value;
            Wellformed(kr) && PreviousKeys(kr) == Deduped(c, primary, extras)
  {
    BuildHolds(c, primary, extras, "");
    if extras != [] {
      var before, last := extras[..|extras| - 1], extras[|extras| - 1];
      var kr0 := Build(c, primary, before).value;
      var id := Id(c, last).value;
      BuildHolds(c, primary, before, id);
      PreviousIsDedupe(c, primary, before);
      FirstFinds(c, [primary] + before, id);
      SeenIff(c, primary, before, id);
      if id !in kr0.keys {
        PreviousAdd(kr0, id, last);
      }
    }
  }

  lemma SeenIff(c: Crypto, primary: string, before: seq<string>, id: string)
    ensures (exists i :: 0 <= i < |[primary] + before| && Id(c, ([primary] + before)[i]) == Some(id)) <==>
            Id(c, primary) == Some(id) || exists i :: 0 <= i < |before| && Id(c, before[i]) == Some(id)
  {
    var all := [primary] + before;
    if i :| 0 <= i < |all| && Id(c, all[i]) == Some(id) {
      if i > 0 { assert before[i - 1] == all[i]; }
    }
    if i :| 0 <= i < |before| && Id(c, before[i]) == Some(id) {
      assert all[i + 1] == before[i];
    }
    assert all[0] == primary;
  }

  lemma PreviousAdd(kr: Keyring, id: string, key: string)
    requires Wellformed(kr) && id !in kr.keys
    ensures var kr' := kr.(keys := kr.keys[id := key], order := kr.order + [id]);
            Wellformed(kr') && PreviousKeys(kr') == PreviousKeys(kr) + [key]
  {
  }

  // -------------------------------------------------------------- envelopes

  lemma {:induction false} CutTagged(tag: string, payload: string)
    requires !Contains(tag, ':')
    ensures Cut(tag + ":" + payload) == Some((tag, payload))
  {
    var s := tag + ":" + payload;
    if tag == "" {
      assert s[1..] == payload;
    } else {
      assert tag[0] != ':';
      assert s[1..] == tag[1..] + ":" + payload;
      forall i | 0 <= i < |tag[1..]| ensures tag[1..][i] != ':' {
        assert tag[1..][i] == tag[i + 1];
      }
      CutTagged(tag[1..], payload);
      assert [tag[0]] + tag[1..] == tag;
    }
  }

  lemma {:induction false} CutLegacy(s: string)
    requires !Contains(s, ':')
    ensures Cut(s).None?
  {
    if s != "" {
      assert s[0] != ':';
      forall i | 0 <= i < |s[1..]| ensures s[1..][i] != ':' {
        assert s[1..][i] == s[i + 1];
      }
      CutLegacy(s[1..]);
    }
  }

  /** A keyring encrypts exactly when its primary key can seal, whatever extras it
      keeps, and the envelope is the primary's id and the sealed text. */
  lemma EncryptIff(c: Crypto, primary: string, extras: seq<string>, nonce: string, plaintext: string)
    requires Build(c, primary, extras).Some?
    ensures var kr := Build(c, primary, extras).value; var sealed := Seal(c, primary, nonce, plaintext);
            && kr.primary in kr.keys
            && (Encrypt(c, kr, nonce, plaintext).Some? <==> sealed.Some?)
            && (sealed.Some? ==> Encrypt(c, kr, nonce, plaintext) == Some(Id(c, primary).value + ":" + sealed.value))
  {
    BuildHolds(c, primary, extras, "");
  }

  /** An envelope opens under every keyring that holds its key, and only the key
      its tag names is ever tried: without a key of that id there is an error. */
  lemma EnvelopeLaw(c: Crypto, kr: Keyring, nonce: string, plaintext: string, reader: Keyring)
    requires Sound(c) && kr.primary in kr.keys && reader.primary in reader.keys
    requires Id(c, kr.keys[kr.primary]) == Some(kr.primary)
    requires Encrypt(c, kr, nonce, plaintext).Some?
    ensures var e := Encrypt(c, kr, nonce, plaintext).value;
            && (kr.primary !in reader.keys ==> Decrypt(c, reader, e).None?)
            && (kr.primary in reader.keys && c.material(reader.keys[kr.primary]) == c.material(kr.keys[kr.primary]) ==>
                  Decrypt(c, reader, e) == Some(plaintext))
            && (kr.primary in reader.keys ==>
                  Decrypt(c, reader, e) ==
                  Open(c, reader.keys[kr.primary], Seal(c, kr.keys[kr.primary], nonce, plaintext).value))
  {
    CutTagged(kr.primary, Seal(c, kr.keys[kr.primary], nonce, plaintext).value);
  }

  /** Ciphertext written before envelopes existed opens with the primary key. */
  lemma LegacyLaw(c: Crypto, kr: Keyring, key: string, nonce: string, plaintext: string)
    requires Sound(c) && kr.primary in kr.keys && kr.keys[kr.primary] == key
    requires Seal(c, key, nonce, plaintext).Some? && !Contains(Seal(c, key, nonce, plaintext).value, ':')
    ensures Decrypt(c, kr, Seal(c, key, nonce, plaintext).value) == Some(plaintext)
  {
    CutLegacy(Seal(c, key, nonce, plaintext).value);
  }

  // --------------------------------------------------------------- rotations

  /** One deployment: the key in use and the keys kept for reading. */
  datatype Deployment = Deployment(primary: string, extras: seq<string>)

  function Ring(c: Crypto, d: Deployment): Option<Keyring> { Build(c, d.primary, d.extras) }

  function KeysOf(d: Deployment): seq<string> { [d.primary] + d.extras }

  /** Every rotation keeps the keys that were ever in use, in any order and any
      spelling. */
  predicate KeepsFormer(c: Crypto, history: seq<Deployment>) {
    forall i, j :: 0 <= i < j < |history| ==>
      exists kept :: kept in history[j].extras && c.material(kept) == c.material(history[i].primary)
  }

  /** No two keys of different material share an id; one key listed in two
      spellings does no harm. */
  predicate Injective(c: Crypto, keys: seq<string>) {
    forall a, b :: a in keys && b in keys && Id(c, a) == Id(c, b) ==> c.material(a) == c.material(b)
  }

  /** A keyring selects the right material for an envelope of `key` exactly when the
      first of its keys with that id has it. */
  lemma SelectsIffFirst(c: Crypto, d: Deployment, key: string)
    requires Ring(c, d).Some? && Id(c, key).Some?
    ensures var kr := Ring(c, d).value; var id := Id(c, key).value;
            (id in kr.keys && c.material(kr.keys[id]) == c.material(key)) <==>
            (First(c, KeysOf(d), id).Some? && c.material(First(c, KeysOf(d), id).value) == c.material(key))
  {
    BuildHolds(c, d.primary, d.extras, Id(c, key).value);
  }

  /** Over any sequence of rotations that keeps former keys, in whatever spelling,
      an envelope written under any deployment is read under every later one. */
  lemma RotationLosesNothing(c: Crypto, history: seq<Deployment>, i: nat, j: nat, nonce: string, plaintext: string)
    requires Sound(c) && KeepsFormer(c, history) && i <= j < |history|
    requires Ring(c, history[i]).Some? && Ring(c, history[j]).Some?
    requires Injective(c, KeysOf(history[j]))
    ensures var w, r := Ring(c, history[i]).value, Ring(c, history[j]).value;
            && w.primary in w.keys && r.primary in r.keys
            && (Encrypt(c, w, nonce, plaintext).Some? ==>
                  Decrypt(c, r, Encrypt(c, w, nonce, plaintext).value) == Some(plaintext))
  {
    var key := history[i].primary;
    var all := KeysOf(history[j]);
    BuildHolds(c, key, history[i].extras, "");
    BuildHolds(c, history[j].primary, history[j].extras, "");
    var id := Id(c, key).value;
    var k := KeptAt(c, history, i, j);
    FirstFinds(c, all, id);
    assert all[k] in all && Id(c, all[k]) == Some(id);
    SelectsIffFirst(c, history[j], key);
    var w, r := Ring(c, history[i]).value, Ring(c, history[j]).value;
    if Encrypt(c, w, nonce, plaintext).Some? {
      EnvelopeLaw(c, w, nonce, plaintext, r);
    }
  }

  lemma KeptAt(c: Crypto, history: seq<Deployment>, i: nat, j: nat) returns (k: nat)
    requires KeepsFormer(c, history) && i <= j < |history|
    ensures k < |KeysOf(history[j])| && c.material(KeysOf(history[j])[k]) == c.material(history[i].primary)
  {
    if i == j {
      k := 0;
    } else {
      var kept :| kept in history[j].extras && c.material(kept) == c.material(history[i].primary);
      var e :| 0 <= e < |history[j].extras| && history[j].extras[e] == kept;
      k := e + 1;
    }
  }

  /** Opening under material other than the sealing one fails. */
  ghost predicate Authentic(c: Crypto) {
    forall m, n, p, other {:trigger c.openWith(other, c.sealWith(m, n, p).value)} ::
      c.sealWith(m, n, p).Some? && other != m ==> c.openWith(other, c.sealWith(m, n, p).value).None?
  }

  /** Untagged ciphertext is only ever tried with the primary key, so after
      rotations it is read if and only if the key it was written under is the
      primary again, in this or another spelling; keeping that key among the
      extras does not help. */
  lemma LegacyReadIffPrimary(c: Crypto, history: seq<Deployment>, i: nat, j: nat, nonce: string, plaintext: string)
    requires Sound(c) && Authentic(c) && i < |history| && j < |history| && Ring(c, history[j]).Some?
    requires Seal(c, history[i].primary, nonce, plaintext).Some?
    requires !Contains(Seal(c, history[i].primary, nonce, plaintext).value, ':')
    ensures var r := Ring(c, history[j]).value;
            && r.primary in r.keys
            && (Decrypt(c, r, Seal(c, history[i].primary, nonce, plaintext).value) == Some(plaintext)
                <==> c.material(history[j].primary) == c.material(history[i].primary))
  {
    BuildHolds(c, history[j].primary, history[j].extras, "");
    var r := Ring(c, history[j]).value;
    var ct := Seal(c, history[i].primary, nonce, plaintext).value;
    CutLegacy(ct);
    assert Decrypt(c, r, ct) == Open(c, r.keys[r.primary], ct);
    assert r.keys[r.primary] == history[j].primary;
  }

  /** Two kept keys that share an id: the one listed later is not held at all. */
  lemma CollisionDropsLaterKey(c: Crypto, a: string, b: string)
    requires Id(c, a).Some? && Id(c, a) == Id(c, b) && c.material(a) != c.material(b)
    ensures var kr := Build(c, a, [b]);
            kr.Some? && Id(c, b).value in kr.value.keys && kr.value.keys[Id(c, b).value] == a
            && Wellformed(kr.value) && PreviousKeys(kr.value) == []
  {
    assert [b][..0] == [];
    var kr0 := Build(c, a, []).value;
    assert Build(c, a, [b]) == Add(c, kr0, b);
  }
}
