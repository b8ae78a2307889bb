/**
 * The two OAuth initiation pages (src/shared/pages/auth/GoogleOAuthPage.tsx and
 * MicrosoftOAuthPage.tsx): draw a 32-byte challenge, encode it as lowercase
 * base16 (section 8 of RFC 4648), store it under `oauth_state`, and redirect to
 * the provider's authorization endpoint with the parameters of section 4.1.1 of
 * RFC 6749 (the `state` parameter of section 10.12 guards against CSRF).
 */
module OAuthInitiation {
  import opened Wrappers
  import opened Browser

  type Byte = b: int | 0 <= b < 256

  /** The sessionStorage key of the outstanding challenge. */
  const StateKey := "oauth_state"

  const StateBytes := 32

  // ---------------------------------------------------------------- base16

  /** The lowercase digit for `k`: `0`-`9`, then `a`-`f`. */
  function HexChar(k: nat): (c: char)
    requires k < 16
  {
    if k < 10 then ('0' as int + k) as char else ('a' as int + k - 10) as char
  }

  predicate IsLowerHex(c: char)
  {
    '0' <= c <= '9' || 'a' <= c <= 'f'
  }

  /** `n.toString(16)`: base-16 digits, most significant first, no leading zeros. */
  function ToBase16(n: nat): (s: string)
    decreases n
  {
    if n < 16 then [HexChar(n)] else ToBase16(n / 16) + [HexChar(n % 16)]
  }

  /** `s.padStart(width, fill)` */
  function PadStart(s: string, width: nat, fill: char): (r: string)
  {
    if |s| >= width then s else seq(width - |s|, _ => fill) + s
  }

  /** `byte.toString(16).padStart(2, "0")`: exactly two digits, high nibble first, zero-padded. */
  function ByteHex(b: Byte): (s: string)
    ensures s == [HexChar(b / 16), HexChar(b % 16)]
  {
    ByteBase16(b);
    PadStart(ToBase16(b), 2, '0')
  }

  /** A byte has one base-16 digit below 16 and two from 16 on. */
  lemma ByteBase16(b: Byte)
    ensures ToBase16(b) == if b < 16 then [HexChar(b)] else [HexChar(b / 16), HexChar(b % 16)]
  {
    if b >= 16 {
      assert ToBase16(b / 16) == [HexChar(b / 16)];
    }
  }

  /** `Array.from(bytes, ByteHex).join("")` */
  function EncodeHex(bytes: seq<Byte>): (s: string)
    ensures |s| == 2 * |bytes|
    ensures forall i :: 0 <= i < |s| ==> IsLowerHex(s[i])
  {
    if bytes == [] then "" else ByteHex(bytes[0]) + EncodeHex(bytes[1..])
  }

  /** The value of a lowercase hex digit. */
  function HexValue(c: char): (r: Option<nat>)
    ensures r.Some? <==> IsLowerHex(c)
    ensures r.Some? ==> r.value < 16 && HexChar(r.value) == c
  {
    if '0' <= c <= '9' then Some(c as int - '0' as int)
    else if 'a' <= c <= 'f' then Some(c as int - 'a' as int + 10)
    else None
  }

  /** The inverse of `EncodeHex`: pairs of lowercase digits back to bytes. */
  function DecodeHex(s: string): Option<seq<Byte>>
    decreases |s|
  {
    if |s| == 0 then Some([])
    else if |s| == 1 then None
    else match (HexValue(s[0]), HexValue(s[1]), DecodeHex(s[2..]))
      case (Some(hi), Some(lo), Some(rest)) => Some([16 * hi + lo] + rest)
      case _ => None
  }

  /** Each digit reads back as the value it was written for. */
  lemma HexCharValue(k: nat)
    requires k < 16
    ensures HexValue(HexChar(k)) == Some(k)
  {
  }

  /** The state string decodes back to the drawn bytes, so no two draws give the same state. */
  lemma {:induction false} DecodeEncodeHex(bytes: seq<Byte>)
    ensures DecodeHex(EncodeHex(bytes)) == Some(bytes)
  {
    if bytes != [] {
      var b := bytes[0];
      var s := EncodeHex(bytes);
      assert s == [HexChar(b / 16), HexChar(b % 16)] + EncodeHex(bytes[1..]);
      assert s[2..] == EncodeHex(bytes[1..]);
      HexCharValue(b / 16);
      HexCharValue(b % 16);
      DecodeEncodeHex(bytes[1..]);
      assert [16 * (b / 16) + b % 16] + bytes[1..] == bytes;
    }
  }

  /** Encoding is injective: different challenges are different state strings. */
  lemma EncodeHexInjective(a: seq<Byte>, b: seq<Byte>)
    requires EncodeHex(a) == EncodeHex(b)
    ensures a == b
  {
    DecodeEncodeHex(a);
    DecodeEncodeHex(b);
  }

  /**
   * `generateRandomState()`, given the 32 bytes `crypto.getRandomValues` wrote:
   * 64 lowercase hex digits that decode back to those bytes.
   */
  function GenerateRandomState(random: seq<Byte>): (s: string)
    requires |random| == StateBytes
    ensures |s| == 64
    ensures forall i :: 0 <= i < |s| ==> IsLowerHex(s[i])
    ensures DecodeHex(s) == Some(random)
  {
    DecodeEncodeHex(random);
    EncodeHex(random)
  }

  // ---------------------------------------------------------------- authorization request

  /** A query string as the ordered list of pairs given to `URLSearchParams`. */
  type Params = seq<(string, string)>

  /** `params.get(key)`: the first value under `key`. */
  function Lookup(params: Params, key: string): (r: Option<string>)
  {
    if params == [] then None
    else if params[0].0 == key then Some(params[0].1)
    else Lookup(params[1..], key)
  }

  /** `get` finds the value of the first pair with the key. */
  lemma {:induction false} LookupFirst(params: Params, key: string, i: nat)
    requires i < |params| && params[i].0 == key
    requires forall j :: 0 <= j < i ==> params[j].0 != key
    ensures Lookup(params, key) == Some(params[i].1)
  {
    if i > 0 {
      LookupFirst(params[1..], key, i - 1);
    }
  }

  /** `get` is null exactly when no pair has the key. */
  lemma {:induction false} LookupAbsent(params: Params, key: string)
    ensures Lookup(params, key).None? <==> forall j :: 0 <= j < |params| ==> params[j].0 != key
    decreases |params|
  {
    if params != [] {
      LookupAbsent(params[1..], key);
      assert forall j :: 1 <= j < |params| ==> params[j] == params[1..][j - 1];
    }
  }

  /** With pairwise different keys, `get` returns the value of the pair with that key. */
  lemma LookupDistinct(params: Params, i: nat)
    requires i < |params|
    requires forall j, k :: 0 <= j < k < |params| ==> params[j].0 != params[k].0
    ensures Lookup(params, params[i].0) == Some(params[i].1)
  {
    LookupFirst(params, params[i].0, i);
  }

  /** The keys of a parameter list, in order. */
  function Keys(params: Params): seq<string>
  {
    seq(|params|, i requires 0 <= i < |params| => params[i].0)
  }

  /** The full-page navigation the initiator ends with: endpoint and query parameters. */
  datatype AuthorizationRedirect = AuthorizationRedirect(endpoint: string, params: Params)

  const GoogleEndpoint := "https://accounts.google.com/o/oauth2/v2/auth"
  const MicrosoftEndpoint := "https://login.microsoftonline.com/common/oauth2/v2.0/authorize"
  const Scope := "openid profile email"

  /** The application's callback route, tagged with the provider. */
  function CallbackUri(origin: string, provider: string): string
  {
    origin + "/auth/callback?provider=" + provider
  }

  /** Google's authorization parameters. */
  function GoogleParams(clientId: string, origin: string, state: string): Params
  {
    [("client_id", clientId), ("redirect_uri", CallbackUri(origin, "google")), ("response_type", "code"),
     ("scope", Scope), ("state", state)]
  }

  /** Microsoft's authorization parameters: Google's set plus `response_mode=query`. */
  function MicrosoftParams(clientId: string, origin: string, state: string): Params
  {
    [("client_id", clientId), ("redirect_uri", CallbackUri(origin, "microsoft")), ("response_type", "code"),
     ("scope", Scope), ("response_mode", "query"), ("state", state)]
  }

  /** The Google request carries exactly the five parameters, with these values. */
  lemma GoogleParamsContents(clientId: string, origin: string, state: string)
    ensures var ps := GoogleParams(clientId, origin, state);
            && Keys(ps) == ["client_id", "redirect_uri", "response_type", "scope", "state"]
            && Lookup(ps, "client_id") == Some(clientId)
            && Lookup(ps, "redirect_uri") == Some(origin + "/auth/callback?provider=google")
            && Lookup(ps, "response_type") == Some("code")
            && Lookup(ps, "scope") == Some("openid profile email")
            && Lookup(ps, "state") == Some(state)
  {
    var ps := GoogleParams(clientId, origin, state);
    LookupDistinct(ps, 0);
    LookupDistinct(ps, 1);
    LookupDistinct(ps, 2);
    LookupDistinct(ps, 3);
    LookupDistinct(ps, 4);
    assert "/auth/callback?provider=" + "google" == "/auth/callback?provider=google";
    assert CallbackUri(origin, "google") == origin + ("/auth/callback?provider=" + "google");
  }

  /**
   * The Microsoft request is the Google one with the provider tag changed and
   * `response_mode=query` inserted before `state`.
   */
  lemma MicrosoftParamsExtendGoogle(clientId: string, origin: string, state: string)
    ensures var g := GoogleParams(clientId, origin, state);
            MicrosoftParams(clientId, origin, state)
              == g[..1] + [("redirect_uri", CallbackUri(origin, "microsoft"))] + g[2..4] + [("response_mode", "query")] + g[4..]
    ensures Lookup(MicrosoftParams(clientId, origin, state), "state") == Some(state)
    ensures Lookup(MicrosoftParams(clientId, origin, state), "response_mode") == Some("query")
  {
    var ps := MicrosoftParams(clientId, origin, state);
    LookupDistinct(ps, 4);
    LookupDistinct(ps, 5);
  }

  /**
   * The Google page's effect: the state is stored before the client id is
   * checked; without a (truthy) client id it returns without redirecting.
   */
  method InitiateGoogle(storage: SessionStorage, random: seq<Byte>, clientId: Option<string>, origin: string)
    returns (redirect: Option<AuthorizationRedirect>)
    requires |random| == StateBytes
    modifies storage
    ensures storage.items == old(storage.items)[StateKey := GenerateRandomState(random)]
    ensures redirect.Some? <==> Truthy(clientId)
    ensures redirect.Some? ==> redirect.value == AuthorizationRedirect(GoogleEndpoint, GoogleParams(clientId.value, origin, GenerateRandomState(random)))
    ensures redirect.Some? ==> Lookup(redirect.value.params, "state") == storage.GetItem(StateKey)
  {
    var state := GenerateRandomState(random);
    storage.SetItem(StateKey, state);
    if !Truthy(clientId) {
      return None;
    }
    redirect := Some(AuthorizationRedirect(GoogleEndpoint, GoogleParams(clientId.value, origin, state)));
    GoogleParamsContents(clientId.value, origin, state);
  }

  /** The Microsoft page's effect, in the same order as Google's. */
  method InitiateMicrosoft(storage: SessionStorage, random: seq<Byte>, clientId: Option<string>, origin: string)
    returns (redirect: Option<AuthorizationRedirect>)
    requires |random| == StateBytes
    modifies storage
    ensures storage.items == old(storage.items)[StateKey := GenerateRandomState(random)]
    ensures redirect.Some? <==> Truthy(clientId)
    ensures redirect.Some? ==> redirect.value == AuthorizationRedirect(MicrosoftEndpoint, MicrosoftParams(clientId.value, origin, GenerateRandomState(random)))
    ensures redirect.Some? ==> Lookup(redirect.value.params, "state") == storage.GetItem(StateKey)
  {
    var state := GenerateRandomState(random);
    storage.SetItem(StateKey, state);
    if !Truthy(clientId) {
      return None;
    }
    redirect := Some(AuthorizationRedirect(MicrosoftEndpoint, MicrosoftParams(clientId.value, origin, state)));
    MicrosoftParamsExtendGoogle(clientId.value, origin, state);
  }
}
