/**
 * The split-key session store. A value is serialised, encrypted under a
 * fresh key, and kept as hex text in `session.encrypted[id]`; the key, as hex
 * text, goes to the browser in the httpOnly cookie `<id>.key` and is mirrored
 * into `req.cookies` so the same request can read it back. Reading needs both
 * halves, and every failure reads as absence.
 */
module SessionCrypto {
  import opened Wrappers
  import Hex
  import opened Cipher
  import opened Json
  import opened JsObject
  import opened Http

  /** A read, together with the request after `getSessionData` ran. */
  datatype Read<T> = Read(req: Request, value: T)

  /** `getCookieName(id)`: the cookie that holds the key for `id`. */
  function CookieName(id: string): (name: string)
    ensures |name| == |id| + 4
    ensures name[..|id|] == id && name[|id|..] == ".key"
  {
    id + ".key"
  }

  /** Distinct entries have distinct key cookies. */
  lemma CookieNameInjective(a: string, b: string)
    requires CookieName(a) == CookieName(b)
    ensures a == b
  {
    assert a == CookieName(a)[..|a|];
  }

  /** The entries of the `encrypted` record; a missing record has none. */
  function Entries(s: Session): Object {
    s.encrypted.GetOr([])
  }

  /** `getSessionData(req)`: creates the `encrypted` record when missing. */
  function Init(s: Session): (r: Session)
    ensures r.encrypted.Some?
    ensures Entries(r) == Entries(s)
    ensures s.encrypted.Some? ==> r == s
  {
    if s.encrypted.Some? then s else Session(Some([]))
  }

  /** Every session the store writes keeps distinct property names. */
  ghost predicate WellFormed(s: Session) {
    UniqueKeys(Entries(s))
  }

  /** `encryptSessionData(req, res, id, data)` with `km` as the random draw. */
  function Store<T>(c: BlockCipher, json: Serializer<T>, ex: Exchange, id: string, data: T, km: KeyMaterial): (r: Exchange)
    ensures r.req.session.encrypted.Some?
    ensures Get(Entries(r.req.session), id).Some?
    ensures forall k :: k != id ==> Get(Entries(r.req.session), k) == Get(Entries(ex.req.session), k)
    ensures WellFormed(ex.req.session) ==> WellFormed(r.req.session)
    ensures r.req.cookies == ex.req.cookies[CookieName(id) := Hex.Encode(km.key)]
    ensures r.req == ex.req.(session := r.req.session, cookies := r.req.cookies)
    ensures r.res == ex.res.(cookies := ex.res.cookies + [SetCookie(CookieName(id), Hex.Encode(km.key), CookieOptions(true, None))])
  {
    var entries := Entries(ex.req.session);
    var blob := Encrypt(c, km.key, km.iv, json.stringify(data));
    var keyText := Hex.Encode(km.key);
    var name := CookieName(id);
    PutUnique(entries, id, Hex.Encode(blob));
    var req := ex.req.(session := Session(Some(Put(entries, id, Hex.Encode(blob)))),
                       cookies := ex.req.cookies[name := keyText]);
    Exchange(req, ex.res.(cookies := ex.res.cookies + [SetCookie(name, keyText, CookieOptions(true, None))]))
  }

  /**
   * `decryptSessionData(req, id)`: absent unless both the ciphertext and the
   * key cookie are non-empty and decryption and parsing succeed.
   */
  function Load<T>(c: BlockCipher, json: Serializer<T>, req: Request, id: string): (r: Read<Option<T>>)
    ensures r.req == req.(session := Init(req.session))
    ensures !Truthy(Get(Entries(req.session), id)) ==> r.value.None?
    ensures !Truthy(Lookup(req.cookies, CookieName(id))) ==> r.value.None?
    ensures Truthy(Get(Entries(req.session), id)) && Truthy(Lookup(req.cookies, CookieName(id))) ==>
      var plain := Decrypt(c, Hex.Decode(req.cookies[CookieName(id)]), Hex.Decode(Get(Entries(req.session), id).value));
      && (plain.None? ==> r.value.None?)
      && (plain.Some? ==> r.value == json.parse(plain.value))
  {
    var session := Init(req.session);
    var text := Get(Entries(session), id);
    var keyText := Lookup(req.cookies, CookieName(id));
    var value :=
      if Truthy(text) && Truthy(keyText) then
        match Decrypt(c, Hex.Decode(keyText.value), Hex.Decode(text.value))
        case Some(plain) => json.parse(plain)
        case None => None
      else None;
    Read(req.(session := session), value)
  }

  /** A read depends only on the entry and on the key cookie it names. */
  lemma LoadCongruent<T>(c: BlockCipher, json: Json.Serializer<T>, a: Request, b: Request, id: string)
    requires Get(Entries(a.session), id) == Get(Entries(b.session), id)
    requires Lookup(a.cookies, CookieName(id)) == Lookup(b.cookies, CookieName(id))
    ensures Load(c, json, a, id).value == Load(c, json, b, id).value
  {
  }

  /** `removeSessionData(req, res, id)`; the mirrored request cookie stays. */
  function Remove(ex: Exchange, id: string): (r: Exchange)
    ensures r.req.session.encrypted.Some?
    ensures Get(Entries(r.req.session), id).None?
    ensures forall k :: k != id ==> Get(Entries(r.req.session), k) == Get(Entries(ex.req.session), k)
    ensures WellFormed(ex.req.session) ==> WellFormed(r.req.session)
    ensures r.req == ex.req.(session := r.req.session)
    ensures r.res == ex.res.(cookies := ex.res.cookies + [ClearCookie(CookieName(id))])
  {
    var entries := Entries(ex.req.session);
    DeleteUnique(entries, id);
    var req := ex.req.(session := Session(Some(Delete(entries, id))));
    Exchange(req, ex.res.(cookies := ex.res.cookies + [ClearCookie(CookieName(id))]))
  }

  /** `listEncrypted(req)`: the ids held in the session, in insertion order. */
  function ListEncrypted(req: Request): (r: Read<seq<string>>)
    ensures r.req == req.(session := Init(req.session))
    ensures forall k :: k in r.value <==> Get(Entries(req.session), k).Some?
  {
    var session := Init(req.session);
    Read(req.(session := session), Keys(Entries(session)))
  }

  /** Reading back in the same request what was just stored gives it back. */
  lemma StoreThenLoad<T(!new)>(c: BlockCipher, json: Serializer<T>, ex: Exchange, id: string, data: T, km: KeyMaterial)
    requires Cipher.Lawful(c) && Json.Lawful(json)
    ensures Load(c, json, Store(c, json, ex, id, data, km).req, id).value == Some(data)
  {
    var req := Store(c, json, ex, id, data, km).req;
    var blob := Encrypt(c, km.key, km.iv, json.stringify(data));
    var text := Get(Entries(req.session), id);
    assert text == Some(Hex.Encode(blob));
    assert |Hex.Encode(blob)| >= 2 * IV_SIZE;
    assert Lookup(req.cookies, CookieName(id)) == Some(Hex.Encode(km.key));
    assert |Hex.Encode(km.key)| == 2 * KEY_SIZE;
    Hex.DecodeEncode(blob);
    Hex.DecodeEncode(km.key);
    RoundTrip(c, km.key, km.iv, json.stringify(data));
  }

  /** Storing under one id does not change what another id reads. */
  lemma StoreIsolated<T>(c: BlockCipher, json: Serializer<T>, ex: Exchange, id: string, other: string, data: T, km: KeyMaterial)
    requires other != id
    ensures Load(c, json, Store(c, json, ex, id, data, km).req, other).value == Load(c, json, ex.req, other).value
  {
    var req := Store(c, json, ex, id, data, km).req;
    if CookieName(other) == CookieName(id) {
      CookieNameInjective(other, id);
    }
    assert Lookup(req.cookies, CookieName(other)) == Lookup(ex.req.cookies, CookieName(other));
    assert Get(Entries(req.session), other) == Get(Entries(ex.req.session), other);
    LoadCongruent(c, json, req, ex.req, other);
  }

  /** After removal the id reads as absent and is no longer listed. */
  lemma RemoveThenLoad<T>(c: BlockCipher, json: Serializer<T>, ex: Exchange, id: string)
    ensures Load(c, json, Remove(ex, id).req, id).value.None?
    ensures id !in ListEncrypted(Remove(ex, id).req).value
  {
  }

  /** Removing under one id does not change what another id reads. */
  lemma RemoveIsolated<T>(c: BlockCipher, json: Serializer<T>, ex: Exchange, id: string, other: string)
    requires other != id
    ensures Load(c, json, Remove(ex, id).req, other).value == Load(c, json, ex.req, other).value
  {
    var req := Remove(ex, id).req;
    assert Get(Entries(req.session), other) == Get(Entries(ex.req.session), other);
  }

  /** Removing twice leaves the same session and the same browser cookies as removing once. */
  lemma RemoveIdempotent(ex: Exchange, id: string, jar: map<string, string>)
    ensures Remove(Remove(ex, id), id).req == Remove(ex, id).req
    ensures Jar(jar, Remove(Remove(ex, id), id).res.cookies) == Jar(jar, Remove(ex, id).res.cookies)
  {
    var once := Remove(ex, id);
    var twice := Remove(once, id);
    DeleteKeys(Entries(once.req.session), id);
    assert twice.res.cookies == once.res.cookies + [ClearCookie(CookieName(id))];
    JarAppend(jar, once.res.cookies, [ClearCookie(CookieName(id))]);
    assert Jar(Jar(jar, once.res.cookies), [ClearCookie(CookieName(id))])
        == Jar(jar, once.res.cookies) - {CookieName(id)};
    JarAppend(jar, ex.res.cookies, [ClearCookie(CookieName(id))]);
  }
}
