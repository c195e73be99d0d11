/**
 * The Telegram Mini App login check: the data-check string built from the
 * init data's query parameters, the HMAC-SHA256 comparison against the
 * supplied `hash`, and the status codes the login endpoint answers with.
 *
 * The init data is taken already split into `key=value` pairs, in order.
 * The HMAC-SHA256 primitive, the UTF-8 and hex encodings and the locale's
 * key order are parameters.
 */
module TelegramAuth {
  import opened Wrappers
  import opened Listing
  import opened Js
  import opened Text

  datatype Param = Param(key: string, value: string)

  function ParamKey(p: Param): string { p.key }

  function HasKey(key: string): Param -> bool { (p: Param) => p.key == key }
  function OtherKey(key: string): Param -> bool { (p: Param) => p.key != key }

  /** `params.get(key)`: the value of the first pair with that key, `null` as `None`. */
  function Get(ps: seq<Param>, key: string): (r: Option<string>)
    ensures r.None? <==> forall i :: 0 <= i < |ps| ==> ps[i].key != key
    ensures r.Some? ==> exists i :: 0 <= i < |ps| && ps[i] == Param(key, r.value)
                                    && forall k :: 0 <= k < i ==> ps[k].key != key
  {
    match FindFirst(ps, HasKey(key))
    case None => None
    case Some(p) => Some(p.value)
  }

  /** `params.delete(key)`: removes every pair with that key and keeps the rest. */
  function Delete(ps: seq<Param>, key: string): (r: seq<Param>)
    ensures forall i :: 0 <= i < |r| ==> r[i].key != key && r[i] in ps
    ensures forall i :: 0 <= i < |ps| && ps[i].key != key ==> ps[i] in r
  {
    Filter(ps, OtherKey(key))
  }

  /** Every other pair is kept exactly as often as it occurs. */
  lemma DeleteCounts(ps: seq<Param>, key: string)
    ensures forall p :: multiset(Delete(ps, key))[p] == if p.key == key then 0 else multiset(ps)[p]
  {
    forall p ensures multiset(Delete(ps, key))[p] == if p.key == key then 0 else multiset(ps)[p] {
      FilterMultiplicity(ps, OtherKey(key), p);
    }
  }

  /**
   * The rest keep their order: deleting from a concatenation deletes from
   * each part, and a single pair survives exactly when its key differs.
   */
  lemma DeleteKeepsOrder(a: seq<Param>, b: seq<Param>, key: string)
    ensures Delete(a + b, key) == Delete(a, key) + Delete(b, key)
    ensures forall p :: Delete([p], key) == if p.key == key then [] else [p]
  {
    FilterAppend(a, b, OtherKey(key));
    forall p ensures Delete([p], key) == if p.key == key then [] else [p] {
      assert [p][1..] == [];
    }
  }

  /** The pair order of the sort: `([a], [b]) => a.localeCompare(b)`, as "a may come before b". */
  function ByKey(keyLe: (string, string) -> bool): (Param, Param) -> bool {
    (a: Param, b: Param) => keyLe(a.key, b.key)
  }

  lemma ByKeyTotal(keyLe: (string, string) -> bool)
    requires TotalPreorder(keyLe)
    ensures TotalPreorder(ByKey(keyLe))
  {
    var le := ByKey(keyLe);
    forall a: Param, b: Param ensures le(a, b) || le(b, a) {
      assert keyLe(a.key, b.key) || keyLe(b.key, a.key);
    }
    forall a: Param, b: Param, c: Param | le(a, b) && le(b, c) ensures le(a, c) {
      assert keyLe(a.key, b.key) && keyLe(b.key, c.key);
    }
  }

  function Render(p: Param): string { p.key + "=" + p.value }

  function RenderAll(ps: seq<Param>): (r: seq<string>)
    ensures |r| == |ps| && forall i :: 0 <= i < |ps| ==> r[i] == Render(ps[i])
  {
    if |ps| == 0 then [] else [Render(ps[0])] + RenderAll(ps[1..])
  }

  /** The pairs that are signed: all but `hash`, sorted by key. */
  function CheckPairs(ps: seq<Param>, keyLe: (string, string) -> bool): seq<Param> {
    SortBy(Delete(ps, "hash"), ByKey(keyLe))
  }

  /**
   * The signed pairs rendered `key=value`, one per line, no newline after
   * the last. The string holds one line per signed pair: splitting it at
   * the newlines gives back the rendered pairs, when no key or value
   * contains a newline and some pair besides the hash is present.
   */
  function DataCheckString(ps: seq<Param>, keyLe: (string, string) -> bool): (r: string)
    ensures (forall i :: 0 <= i < |ps| ==> '\n' !in ps[i].key && '\n' !in ps[i].value) &&
            (exists i :: 0 <= i < |ps| && ps[i].key != "hash") ==>
              Split(r, '\n') == RenderAll(CheckPairs(ps, keyLe))
  {
    CheckLinesSplit(ps, keyLe);
    Join(RenderAll(CheckPairs(ps, keyLe)), '\n')
  }

  /**
   * The check pairs are the non-hash pairs, each kept as often as it
   * occurs, in key order; none of them is the hash.
   */
  lemma CheckPairsContents(ps: seq<Param>, keyLe: (string, string) -> bool)
    ensures forall i :: 0 <= i < |CheckPairs(ps, keyLe)| ==> CheckPairs(ps, keyLe)[i].key != "hash"
    ensures multiset(CheckPairs(ps, keyLe)) == multiset(Filter(ps, OtherKey("hash")))
    ensures TotalPreorder(keyLe) ==> SortedBy(CheckPairs(ps, keyLe), ByKey(keyLe))
  {
    var d := Delete(ps, "hash");
    var c := SortBy(d, ByKey(keyLe));
    forall i | 0 <= i < |c| ensures c[i].key != "hash" {
      assert c[i] in multiset(c);
      assert c[i] in d;
    }
    if TotalPreorder(keyLe) {
      ByKeyTotal(keyLe);
      SortBySorted(d, ByKey(keyLe));
    }
  }

  /** The rendered check pairs, joined at newlines, split back into themselves. */
  lemma CheckLinesSplit(ps: seq<Param>, keyLe: (string, string) -> bool)
    ensures (forall i :: 0 <= i < |ps| ==> '\n' !in ps[i].key && '\n' !in ps[i].value) &&
            (exists i :: 0 <= i < |ps| && ps[i].key != "hash") ==>
              Split(Join(RenderAll(CheckPairs(ps, keyLe)), '\n'), '\n') == RenderAll(CheckPairs(ps, keyLe))
  {
    if (forall i :: 0 <= i < |ps| ==> '\n' !in ps[i].key && '\n' !in ps[i].value) &&
       (exists i :: 0 <= i < |ps| && ps[i].key != "hash")
    {
      var c := CheckPairs(ps, keyLe);
      var d := Delete(ps, "hash");
      SortByMembers(d, ByKey(keyLe));
      var lines := RenderAll(c);
      forall i | 0 <= i < |lines| ensures '\n' !in lines[i] {
        assert c[i] in d;
        assert c[i] in ps;
      }
      var j :| 0 <= j < |ps| && ps[j].key != "hash";
      assert ps[j] in d;
      SplitJoin(lines, '\n');
    }
  }

  lemma DeleteAround(a: seq<Param>, x: Param, b: seq<Param>)
    requires x.key == "hash"
    ensures Delete(a + [x] + b, "hash") == Delete(a + b, "hash")
  {
    var p := OtherKey("hash");
    FilterAppend(a + [x], b, p);
    FilterAppend(a, [x], p);
    FilterAppend(a, b, p);
    assert Filter([x], p) == [];
    assert Filter(a + [x], p) == Filter(a, p);
  }

  /** A hash pair, wherever it is and whatever it says, does not enter the string. */
  lemma DataCheckIgnoresHash(a: seq<Param>, b: seq<Param>, h: string, keyLe: (string, string) -> bool)
    ensures DataCheckString(a + [Param("hash", h)] + b, keyLe) == DataCheckString(a + b, keyLe)
  {
    DeleteAround(a, Param("hash", h), b);
  }

  /** A key order that is total and tells distinct keys apart. */
  ghost predicate StrictKeyOrder(keyLe: (string, string) -> bool) {
    && TotalPreorder(keyLe)
    && forall a, b :: keyLe(a, b) && keyLe(b, a) ==> a == b
  }

  /**
   * With distinct keys and a key order that separates them, the string
   * depends only on which pairs are present, not on the order the client
   * sent them in.
   */
  lemma DataCheckOrderIndependent(a: seq<Param>, b: seq<Param>, keyLe: (string, string) -> bool)
    requires StrictKeyOrder(keyLe)
    requires KeysDistinct(a, ParamKey)
    requires multiset(a) == multiset(b)
    ensures DataCheckString(a, keyLe) == DataCheckString(b, keyLe)
  {
    var le := ByKey(keyLe);
    ByKeyTotal(keyLe);
    assert TieFree(a, le) by {
      forall i, j | 0 <= i < |a| && 0 <= j < |a| && i != j ensures !le(a[i], a[j]) || !le(a[j], a[i]) {
        if i < j {
          assert ParamKey(a[i]) != ParamKey(a[j]);
        } else {
          assert ParamKey(a[j]) != ParamKey(a[i]);
        }
      }
    }
    var da, db := Delete(a, "hash"), Delete(b, "hash");
    FilterPermutation(a, b, OtherKey("hash"));
    FilterTieFree(a, OtherKey("hash"), le);
    SortByTieFree(da, le);
    SortBySorted(da, le);
    SortBySorted(db, le);
    SortedUnique(SortBy(da, le), SortBy(db, le), le);
  }

  // ---------------------------------------------------------------------
  // The signature.
  // ---------------------------------------------------------------------

  /** The primitives the check relies on, left uninterpreted. */
  datatype Crypto = Crypto(
    hmacSha256: (seq<bv8>, seq<bv8>) -> seq<bv8>,   // key, message
    utf8: string -> seq<bv8>,
    hex: seq<bv8> -> string)

  /** `HMAC(HMAC("WebAppData", token), checkString)` in lower-case hex. */
  function ExpectedHash(c: Crypto, ps: seq<Param>, botToken: string, keyLe: (string, string) -> bool): string {
    var secretKey := c.hmacSha256(c.utf8("WebAppData"), c.utf8(botToken));
    c.hex(c.hmacSha256(secretKey, c.utf8(DataCheckString(ps, keyLe))))
  }

  /**
   * `validateTelegramWebAppData`: the supplied hash must equal the computed
   * one. Init data without a `hash` pair never passes, and passing init data
   * carries the digest of its signed pairs as a `hash` pair.
   */
  function Validate(c: Crypto, ps: seq<Param>, botToken: string, keyLe: (string, string) -> bool): (r: bool)
    ensures (forall i :: 0 <= i < |ps| ==> ps[i].key != "hash") ==> !r
    ensures r ==> exists i :: 0 <= i < |ps| && ps[i] == Param("hash", ExpectedHash(c, ps, botToken, keyLe))
  {
    Get(ps, "hash") == Some(ExpectedHash(c, ps, botToken, keyLe))
  }

  /**
   * With its first `hash` pair carrying `h`, init data passes exactly when
   * `h` is the digest of the other pairs, which do not depend on `h`.
   */
  lemma HashDecides(c: Crypto, a: seq<Param>, b: seq<Param>, h: string, botToken: string,
                    keyLe: (string, string) -> bool)
    requires forall i :: 0 <= i < |a| ==> a[i].key != "hash"
    ensures Validate(c, a + [Param("hash", h)] + b, botToken, keyLe) <==> h == ExpectedHash(c, a + b, botToken, keyLe)
  {
    var ps := a + [Param("hash", h)] + b;
    DataCheckIgnoresHash(a, b, h, keyLe);
    assert ExpectedHash(c, ps, botToken, keyLe) == ExpectedHash(c, a + b, botToken, keyLe);
    var k := FindIndex(ps, HasKey("hash"));
    assert ps[|a|] == Param("hash", h);
    assert k == |a|;
    assert Get(ps, "hash") == Some(h);
  }

  // ---------------------------------------------------------------------
  // POST /api/auth.
  // ---------------------------------------------------------------------

  /** How the login endpoint answers before it touches the user table. */
  datatype AuthOutcome = MissingInitData | ServerConfigError | InvalidInitData | UserNotFound | Accepted(userJson: string) {
    function Status(): int {
      match this
      case MissingInitData => 400
      case ServerConfigError => 500
      case InvalidInitData => 401
      case UserNotFound => 400
      case Accepted(_) => 200
    }

    function Error(): Option<string> {
      match this
      case MissingInitData => Some("Missing initData")
      case ServerConfigError => Some("Server configuration error")
      case InvalidInitData => Some("Invalid initData")
      case UserNotFound => Some("User data not found")
      case Accepted(_) => None
    }
  }

  /**
   * The checks in order: init data present, bot token configured, signature
   * valid, `user` parameter present. `parse` is `new URLSearchParams`.
   */
  function Authenticate(initData: Option<string>, botToken: Option<string>, parse: string -> seq<Param>,
                        c: Crypto, keyLe: (string, string) -> bool): (r: AuthOutcome)
    ensures r == MissingInitData <==> !Truthy(initData)
    ensures r == ServerConfigError <==> Truthy(initData) && !Truthy(botToken)
    ensures r == InvalidInitData <==>
      Truthy(initData) && Truthy(botToken) && !Validate(c, parse(initData.value), botToken.value, keyLe)
    ensures r.Accepted? ==>
      && Validate(c, parse(initData.value), botToken.value, keyLe)
      && Get(parse(initData.value), "user") == Some(r.userJson) && r.userJson != ""
    ensures r == UserNotFound <==>
      && Truthy(initData) && Truthy(botToken) && Validate(c, parse(initData.value), botToken.value, keyLe)
      && !Truthy(Get(parse(initData.value), "user"))
    ensures Truthy(initData) && Truthy(botToken) && Validate(c, parse(initData.value), botToken.value, keyLe)
            && Truthy(Get(parse(initData.value), "user")) ==>
              r == Accepted(Get(parse(initData.value), "user").value)
    ensures r.Status() == 200 <==> r.Accepted?
  {
    if !Truthy(initData) then MissingInitData
    else if !Truthy(botToken) then ServerConfigError
    else if !Validate(c, parse(initData.value), botToken.value, keyLe) then InvalidInitData
    else
      var userParam := Get(parse(initData.value), "user");
      if !Truthy(userParam) then UserNotFound else Accepted(userParam.value)
  }

  /**
   * Missing init data is answered before the token is consulted: the answer
   * is the same whether or not the server is configured.
   */
  lemma MissingInitDataFirst(initData: Option<string>, t1: Option<string>, t2: Option<string>,
                             parse: string -> seq<Param>, c: Crypto, keyLe: (string, string) -> bool)
    requires !Truthy(initData)
    ensures Authenticate(initData, t1, parse, c, keyLe) == Authenticate(initData, t2, parse, c, keyLe)
    ensures Authenticate(initData, t1, parse, c, keyLe).Status() == 400
  {
  }
}
