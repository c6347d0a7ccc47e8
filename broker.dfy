/**
 * The broker settings of one trigger (AmqpBrokerParams.java): server URL,
 * user, credentials id and source address, all settable, with the URL
 * normalised on read, the password looked up through the credentials id and a
 * validity rule deciding whether a connection may be opened.
 *
 * The URL validator belongs to another part of the repository and the
 * credential store to Jenkins; both are parameters here (`UrlCheck`, a
 * credential list).
 */
module Broker {
  import opened Wrappers
  import opened Text

  /** The URL validator: whether a (non-null) URL string is acceptable. */
  type UrlCheck = string -> bool

  /** The validator applied to a URL that may be null; a null URL is never valid. */
  predicate Accepts(check: UrlCheck, url: Option<string>) {
    url.Some? && check(url.value)
  }

  /** A stored username/password credential; the secret is held as its plain text. */
  datatype Credential = Credential(id: string, username: string, password: string)

  /**
   * `getUrl`: whitespace is trimmed and a blank URL becomes null
   * (`stripToNull`), then every leading and trailing `/` is removed.
   */
  function NormalizeUrl(raw: Option<string>): Option<string> {
    match raw
    case None => None
    case Some(s) =>
      var trimmed := Strip(s, Whitespace);
      if trimmed == [] then None else Some(Strip(trimmed, Slash))
  }

  /**
   * The index of the first credential whose id equals `id`, or `|creds|` when
   * none does (a null id equals no id).
   */
  function FirstMatch(creds: seq<Credential>, id: Option<string>): (k: nat)
    ensures k <= |creds|
    ensures forall j :: 0 <= j < k ==> Some(creds[j].id) != id
    ensures k < |creds| ==> Some(creds[k].id) == id
  {
    if creds == [] || Some(creds[0].id) == id then 0 else 1 + FirstMatch(creds[1..], id)
  }

  /** `getCredentials`: the first credential with the given id, if any. */
  function FindCredentials(creds: seq<Credential>, id: Option<string>): (r: Option<Credential>)
    ensures r.Some? ==> r.value in creds && Some(r.value.id) == id
    ensures r.None? <==> forall c :: c in creds ==> Some(c.id) != id
    ensures r.Some? ==> r.value == creds[FirstMatch(creds, id)]
  {
    var k := FirstMatch(creds, id);
    if k < |creds| then Some(creds[k]) else None
  }

  /** `getPassword(credentialsId)`: the matching credential's secret, or the empty secret. */
  function PasswordFor(creds: seq<Credential>, id: Option<string>): (pw: string)
    ensures FindCredentials(creds, id).Some? ==> pw == FindCredentials(creds, id).value.password
    ensures (forall c :: c in creds ==> Some(c.id) != id) ==> pw == []
  {
    match FindCredentials(creds, id)
    case Some(c) => c.password
    case None => []
  }

  /**
   * `isValid`: a non-empty raw URL must normalise to a URL the validator
   * accepts, and the source address must be non-null and non-empty. A null or
   * empty raw URL is not checked at all.
   */
  function ParamsValid(url: Option<string>, sourceAddr: Option<string>, check: UrlCheck): (valid: bool)
    ensures sourceAddr.None? || sourceAddr.value == [] ==> !valid
    ensures url.None? || url.value == [] ==> (valid <==> sourceAddr.Some? && sourceAddr.value != [])
    ensures url.Some? && url.value != [] && !Accepts(check, NormalizeUrl(url)) ==> !valid
    ensures valid ==> sourceAddr.Some? && (url.None? || url.value == [] || Accepts(check, NormalizeUrl(url)))
    ensures valid <==> sourceAddr.Some? && sourceAddr.value != [] && (url.None? || url.value == [] || Accepts(check, NormalizeUrl(url)))
  {
    if url.Some? && url.value != [] && !Accepts(check, NormalizeUrl(url)) then false
    else sourceAddr.Some? && sourceAddr.value != []
  }

  /** Java's string concatenation writes a null reference as "null". */
  function JavaText(s: Option<string>): (t: string)
    ensures s.Some? ==> t == s.value
    ensures s.None? ==> t == "null"
  {
    match s
    case None => "null"
    case Some(v) => v
  }

  /** `toString`: the raw, unnormalised URL, a `/`, then the source address. */
  function Describe(url: Option<string>, sourceAddr: Option<string>): (d: string)
    ensures |d| == |JavaText(url)| + 1 + |JavaText(sourceAddr)|
    ensures d[..|JavaText(url)|] == JavaText(url) && d[|JavaText(url)|] == '/'
    ensures d[|JavaText(url)| + 1..] == JavaText(sourceAddr)
  {
    JavaText(url) + "/" + JavaText(sourceAddr)
  }

  class BrokerParams {
    var url: Option<string>
    /** The user name; never null in the model (see README). */
    var user: string
    var credentialsId: Option<string>
    var sourceAddr: Option<string>

    constructor (url: Option<string>, username: string, credentialsId: Option<string>, sourceAddr: Option<string>)
      ensures this.url == url && user == username
      ensures this.credentialsId == credentialsId && this.sourceAddr == sourceAddr
    {
      this.url := url;
      this.user := username;
      this.credentialsId := credentialsId;
      this.sourceAddr := sourceAddr;
    }

    /** `getUrl`: the normalised URL. */
    function Url(): (r: Option<string>)
      reads this
      ensures r == NormalizeUrl(url)
    {
      NormalizeUrl(url)
    }

    /** `getPassword`: the secret stored under this broker's credentials id. */
    function Password(creds: seq<Credential>): (pw: string)
      reads this
      ensures pw == PasswordFor(creds, credentialsId)
    {
      PasswordFor(creds, credentialsId)
    }

    function IsValid(check: UrlCheck): (valid: bool)
      reads this
      ensures valid == ParamsValid(url, sourceAddr, check)
    {
      ParamsValid(url, sourceAddr, check)
    }

    function ToString(): (d: string)
      reads this
      ensures d == Describe(url, sourceAddr)
    {
      Describe(url, sourceAddr)
    }

    method SetUrl(url: Option<string>)
      modifies this
      ensures this.url == url
      ensures user == old(user) && credentialsId == old(credentialsId) && sourceAddr == old(sourceAddr)
    {
      this.url := url;
    }

    method SetUser(user: string)
      modifies this
      ensures this.user == user
      ensures url == old(url) && credentialsId == old(credentialsId) && sourceAddr == old(sourceAddr)
    {
      this.user := user;
    }

    method SetCredentialsId(credentialsId: Option<string>)
      modifies this
      ensures this.credentialsId == credentialsId
      ensures url == old(url) && user == old(user) && sourceAddr == old(sourceAddr)
    {
      this.credentialsId := credentialsId;
    }

    method SetSourceAddr(sourceAddr: Option<string>)
      modifies this
      ensures this.sourceAddr == sourceAddr
      ensures url == old(url) && user == old(user) && credentialsId == old(credentialsId)
    {
      this.sourceAddr := sourceAddr;
    }
  }

  // ----- Properties -----

  /**
   * The URL is null exactly when the raw URL is null or blank; otherwise it is
   * no longer than the raw URL and never begins or ends with `/` (it may be
   * empty, for "///").
   */
  lemma NormalizedUrlShape(raw: Option<string>)
    ensures NormalizeUrl(raw).None? <==> raw.None? || forall i :: 0 <= i < |raw.value| ==> IsWhitespace(raw.value[i])
    ensures NormalizeUrl(raw).Some? ==> |NormalizeUrl(raw).value| <= |raw.value|
    ensures NormalizeUrl(raw).Some? && NormalizeUrl(raw).value != [] ==>
      NormalizeUrl(raw).value[0] != '/' && NormalizeUrl(raw).value[|NormalizeUrl(raw).value| - 1] != '/'
  {
    if raw.Some? {
      StripKeepsMiddle(raw.value, Whitespace);
      StripKeepsMiddle(Strip(raw.value, Whitespace), Slash);
    }
  }

  /** Normalising an already clean URL changes nothing. */
  lemma CleanUrlIsKept(s: string)
    requires s != [] && !IsWhitespace(s[0]) && !IsWhitespace(s[|s| - 1])
    requires s[0] != '/' && s[|s| - 1] != '/'
    ensures NormalizeUrl(Some(s)) == Some(s)
  {
    StripKeepsMiddle(s, Whitespace);
    StripKeepsMiddle(s, Slash);
  }

  /** The password found is that of the first credential in the list carrying the id. */
  lemma PasswordIsFirstMatch(creds: seq<Credential>, id: Option<string>, k: nat)
    requires k < |creds| && Some(creds[k].id) == id
    requires forall j :: 0 <= j < k ==> Some(creds[j].id) != id
    ensures PasswordFor(creds, id) == creds[k].password
  {
    assert FirstMatch(creds, id) == k;
  }
}
