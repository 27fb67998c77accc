/** Who a relay will speak to (devpipe/src/keys.rs), and the rotation a browser's
    Mint makes (devpipe/src/relay.rs).

    A token is kept only as its hash. The hash is a parameter, so what is proved
    holds of any; where two tokens must not collide, that is said. */
module Keys {
  import opened Basics
  import opened Utf8

  datatype Can = Enrol | Reach

  datatype Key = Key(hash: string, account: string, can: Can, note: string)

  datatype Error = NoAccount | PrefixTooShort | NotSaved

  type Hash = string -> string

  predicate Opens(k: Key, presented: string, can: Can) { k.hash == presented && k.can == can }

  /** Whom a hash speaks for: the last key that matches, as the loop that never
      stops early finds it. */
  function Answer(keys: seq<Key>, presented: string, can: Can): Option<string> {
    if keys == [] then None
    else if Opens(keys[|keys| - 1], presented, can) then Some(keys[|keys| - 1].account)
    else Answer(keys[..|keys| - 1], presented, can)
  }

  /** What revoking by a prefix keeps. */
  function Unrevoked(keys: seq<Key>, prefix: string): seq<Key> {
    if keys == [] then []
    else Unrevoked(keys[..|keys| - 1], prefix) + (if prefix <= keys[|keys| - 1].hash then [] else [keys[|keys| - 1]])
  }

  /** The hashes a rotation takes away, in order. */
  function Stale(keys: seq<Key>, account: string, can: Can): seq<string> {
    if keys == [] then []
    else
      var k := keys[|keys| - 1];
      Stale(keys[..|keys| - 1], account, can) + (if k.account == account && k.can == can then [k.hash] else [])
  }

  function RevokeAll(keys: seq<Key>, hashes: seq<string>): seq<Key> {
    if hashes == [] then keys
    else
      var last := hashes[|hashes| - 1];
      var rest := RevokeAll(keys, hashes[..|hashes| - 1]);
      if |Encode(last)| < 6 then rest else Unrevoked(rest, last)
  }

  /** A rotation: every key the pair had is revoked, and one is granted. */
  function Rotated(keys: seq<Key>, account: string, can: Can, hash: string): seq<Key> {
    RevokeAll(keys, Stale(keys, account, can))
    + (if account == "" then [] else [Key(hash, account, can, "minted from a session")])
  }

  class Keyring {
    const hash: Hash
    var keys: seq<Key>

    constructor (hash: Hash, keys: seq<Key>)
      ensures this.hash == hash && this.keys == keys
    {
      this.hash := hash;
      this.keys := keys;
    }

    method AccountFor(token: string, can: Can) returns (found: Option<string>)
      ensures found == Answer(keys, hash(token), can)
    {
      var presented := hash(token);
      found := None;
      for i := 0 to |keys|
        invariant found == Answer(keys[..i], presented, can)
      {
        var same := keys[i].hash == presented;
        if same && keys[i].can == can {
          found := Some(keys[i].account);
        }
        assert keys[..i + 1][..i] == keys[..i];
      }
      assert keys[..|keys|] == keys;
    }

    /** `token` is the random one drawn; `saved` is whether the file took it. The
        key is held in memory either way. */
    method Grant(account: string, can: Can, note: string, token: string, saved: bool) returns (r: Result<string, Error>)
      modifies this
      ensures account == "" ==> r == Err(NoAccount) && keys == old(keys)
      ensures account != "" ==> keys == old(keys) + [Key(hash(token), account, can, note)]
      ensures account != "" ==> r == if saved then Ok(token) else Err(NotSaved)
    {
      if account == "" {
        return Err(NoAccount);
      }
      keys := keys + [Key(hash(token), account, can, note)];
      r := if saved then Ok(token) else Err(NotSaved);
    }

    method Revoke(prefix: string, saved: bool) returns (r: Result<nat, Error>)
      modifies this
      ensures |Encode(prefix)| < 6 ==> r == Err(PrefixTooShort) && keys == old(keys)
      ensures |Encode(prefix)| >= 6 ==> keys == Unrevoked(old(keys), prefix)
      ensures |Encode(prefix)| >= 6 && r.Ok? ==> r.value == |old(keys)| - |keys|
      ensures |Encode(prefix)| >= 6 ==> (r.Ok? <==> saved || keys == old(keys))
    {
      hide Encode;
      if |Encode(prefix)| < 6 {
        return Err(PrefixTooShort);
      }
      var before := |keys|;
      var kept: seq<Key> := [];
      for i := 0 to |keys|
        invariant kept == Unrevoked(keys[..i], prefix)
      {
        if !(prefix <= keys[i].hash) {
          kept := kept + [keys[i]];
        }
        assert keys[..i + 1][..i] == keys[..i];
      }
      assert keys[..|keys|] == keys;
      UnrevokedShrinks(keys, prefix);
      keys := kept;
      var gone := before - |keys|;
      r := if gone > 0 && !saved then Err(NotSaved) else Ok(gone);
    }

    /** The `Mint` arm: gather the pair's hashes, revoke each whatever becomes of
        the file, and grant a new key. */
    method Mint(account: string, can: Can, token: string, saved: bool) returns (r: Result<string, Error>)
      modifies this
      ensures keys == Rotated(old(keys), account, can, hash(token))
      ensures r == if account == "" then Err(NoAccount) else if saved then Ok(token) else Err(NotSaved)
    {
      hide Encode, Unrevoked;
      var stale: seq<string> := [];
      for i := 0 to |keys|
        invariant keys == old(keys) && stale == Stale(keys[..i], account, can)
      {
        if keys[i].account == account && keys[i].can == can {
          stale := stale + [keys[i].hash];
        }
        assert keys[..i + 1][..i] == keys[..i];
      }
      assert keys[..|keys|] == keys;
      for i := 0 to |stale|
        invariant keys == RevokeAll(old(keys), stale[..i])
      {
        assert stale[..i + 1][..i] == stale[..i];
        var _ := Revoke(stale[i], saved);
      }
      assert stale[..|stale|] == stale;
      r := Grant(account, can, "minted from a session", token, saved);
      assert account == "" ==> keys + [] == keys;
    }
  }

  // ------------------------------------------------------------------ lemmas

  lemma {:induction false} UnrevokedShrinks(keys: seq<Key>, prefix: string)
    ensures |Unrevoked(keys, prefix)| <= |keys|
    ensures |Unrevoked(keys, prefix)| == |keys| <==> Unrevoked(keys, prefix) == keys
  {
    if keys != [] {
      var init, last := keys[..|keys| - 1], keys[|keys| - 1];
      UnrevokedShrinks(init, prefix);
      assert keys == init + [last];
    }
  }

  /** Hashes all of one length, as digests are. */
  predicate Uniform(keys: seq<Key>, n: nat) { forall k :: k in keys ==> |k.hash| == n }

  lemma {:induction false} UnrevokedIn(keys: seq<Key>, prefix: string, k: Key)
    ensures k in Unrevoked(keys, prefix) <==> k in keys && !(prefix <= k.hash)
  {
    if keys != [] {
      assert keys == keys[..|keys| - 1] + [keys[|keys| - 1]];
      UnrevokedIn(keys[..|keys| - 1], prefix, k);
    }
  }

  /** Among hashes of one length, a whole hash is a prefix of itself only: what
      it revokes stops answering, and nothing else changes its answer. */
  lemma {:induction false} RevokeOne(keys: seq<Key>, hash: string, presented: string, can: Can)
    requires Uniform(keys, |hash|)
    ensures Answer(Unrevoked(keys, hash), presented, can)
            == if presented == hash then None else Answer(keys, presented, can)
  {
    if keys != [] {
      var init, last := keys[..|keys| - 1], keys[|keys| - 1];
      assert keys == init + [last];
      RevokeOne(init, hash, presented, can);
      assert last in keys;
      assert hash <= last.hash <==> hash == last.hash;
      if hash != last.hash {
        assert Unrevoked(keys, hash)[..|Unrevoked(keys, hash)| - 1] == Unrevoked(init, hash);
      } else {
        assert Unrevoked(keys, hash) == Unrevoked(init, hash);
      }
    }
  }

  lemma {:induction false} RevokeAllAnswers(keys: seq<Key>, n: nat, hashes: seq<string>, presented: string, can: Can)
    requires n >= 6 && Uniform(keys, n) && forall h :: h in hashes ==> |h| == n
    ensures Uniform(RevokeAll(keys, hashes), n)
    ensures Answer(RevokeAll(keys, hashes), presented, can)
            == if presented in hashes then None else Answer(keys, presented, can)
    decreases |hashes|
  {
    if hashes != [] {
      var init, last := hashes[..|hashes| - 1], hashes[|hashes| - 1];
      assert hashes == init + [last];
      RevokeAllAnswers(keys, n, init, presented, can);
      LongEncode(last);
      var rest := RevokeAll(keys, init);
      RevokeOne(rest, last, presented, can);
      forall k | k in Unrevoked(rest, last) ensures |k.hash| == n { UnrevokedIn(rest, last, k); }
    }
  }

  lemma {:induction false} StaleIn(keys: seq<Key>, account: string, can: Can, h: string)
    ensures h in Stale(keys, account, can)
            <==> exists i :: 0 <= i < |keys| && keys[i].account == account && keys[i].can == can && keys[i].hash == h
  {
    if keys != [] {
      StaleIn(keys[..|keys| - 1], account, can, h);
    }
  }

  /** Exactly what a rotation does to every token's answer: the new hash speaks
      for the account, a hash the pair had speaks for nobody, and any other is
      answered as before. */
  lemma RotationAnswers(keys: seq<Key>, n: nat, account: string, can: Can, granted: string,
                        presented: string, asked: Can)
    requires n >= 6 && Uniform(keys, n) && account != ""
    ensures Answer(Rotated(keys, account, can, granted), presented, asked)
            == if presented == granted && asked == can then Some(account)
               else if presented in Stale(keys, account, can) then None
               else Answer(keys, presented, asked)
  {
    var stale := Stale(keys, account, can);
    forall h | h in stale ensures |h| == n { StaleIn(keys, account, can, h); }
    RevokeAllAnswers(keys, n, stale, presented, asked);
    var after := Rotated(keys, account, can, granted);
    assert after[..|after| - 1] == RevokeAll(keys, stale);
  }

  ghost predicate Injective(hash: Hash) { forall a, b :: hash(a) == hash(b) ==> a == b }

  /** No two stored keys have one hash. */
  predicate Distinct(keys: seq<Key>) {
    forall i, j :: 0 <= i < j < |keys| ==> keys[i].hash != keys[j].hash
  }

  lemma {:induction false} AnswerIs(keys: seq<Key>, presented: string, can: Can, i: nat)
    requires Distinct(keys) && i < |keys| && keys[i].hash == presented
    ensures Answer(keys, presented, can) == if keys[i].can == can then Some(keys[i].account) else None
    decreases |keys|
  {
    var init := keys[..|keys| - 1];
    if i == |keys| - 1 {
      NoAnswer(init, presented, can);
    } else {
      AnswerIs(init, presented, can, i);
    }
  }

  lemma {:induction false} NoAnswer(keys: seq<Key>, presented: string, can: Can)
    requires forall i :: 0 <= i < |keys| ==> keys[i].hash != presented
    ensures Answer(keys, presented, can) == None
  {
    if keys != [] { NoAnswer(keys[..|keys| - 1], presented, can); }
  }

  /** Somebody is answered for exactly when a key with that hash and for that purpose
      is held, and then it is the account of one such key. */
  lemma {:induction false} AnswersIff(keys: seq<Key>, presented: string, can: Can)
    ensures Answer(keys, presented, can).Some? <==>
              exists k :: k in keys && k.hash == presented && k.can == can
    ensures Answer(keys, presented, can).Some? ==>
              exists k :: k in keys && k.hash == presented && k.can == can
                          && k.account == Answer(keys, presented, can).value
  {
    if keys != [] {
      var init, last := keys[..|keys| - 1], keys[|keys| - 1];
      assert keys == init + [last];
      AnswersIff(init, presented, can);
    }
  }

  /** Asking for a key again replaces it: the new token answers for the account
      and purpose, every token that did so before answers nobody, and no other
      token, of any account, notices. */
  lemma MintReplaces(hash: Hash, keys: seq<Key>, n: nat, account: string, can: Can, token: string,
                     other: string, asked: Can)
    requires Injective(hash) && n >= 6 && Uniform(keys, n) && Distinct(keys) && account != ""
    requires forall k :: k in keys ==> k.hash != hash(token)
    ensures var after := Rotated(keys, account, can, hash(token));
            && Answer(after, hash(token), can) == Some(account)
            && (other != token && Answer(keys, hash(other), can) == Some(account) ==>
                  Answer(after, hash(other), asked) == None)
            && (other != token && Answer(keys, hash(other), can) != Some(account)
                ==> Answer(after, hash(other), asked) == Answer(keys, hash(other), asked))
  {
    RotationAnswers(keys, n, account, can, hash(token), hash(token), can);
    RotationAnswers(keys, n, account, can, hash(token), hash(other), asked);
    var h := hash(other);
    StaleIn(keys, account, can, h);
    if i :| 0 <= i < |keys| && keys[i].hash == h {
      AnswerIs(keys, h, can, i);
      assert forall j :: 0 <= j < |keys| && keys[j].hash == h ==> j == i;
    } else {
      NoAnswer(keys, h, can);
    }
  }
}
