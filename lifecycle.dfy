/**
 * The connection to one broker (AmqpConnection.java): the triggers listening
 * on it, and three nullable transport resources -- the connection, its session
 * and the message consumer on the source address -- that `open` creates one
 * after another, `shutdown` releases and `update` reconciles against the
 * broker parameters.
 *
 * The transport itself is not part of the model. Each call `open` makes may
 * throw, and which ones do is a parameter (`faults`); likewise which close
 * calls of `shutdown` throw (`closeFaults`). What `update` observes of a live
 * connection -- its connected URI, user name, password and liveness -- are
 * fields of a `Link`, and the transport may drop a link at any time. The
 * calls of `open` and `shutdown` that may throw are appended to the ghost
 * trace `calls`; the reads `update` makes of a link, and the registration of
 * the connection listener, which is taken never to fail, are not traced.
 */
module Lifecycle {
  import opened Wrappers
  import opened Broker
  import opened Trigger

  /** The transport calls of `open`, each of which may throw. */
  datatype Step =
    | Connect               // factory.createConnection, anonymous or with user and password
    | SetExceptionListener
    | CreateSession
    | CreateQueue
    | CreateConsumer
    | SetMessageListener
    | Start

  datatype Resource = ConsumerResource | SessionResource | ConnectionResource

  /** A transport call: a step of `open`, or the close of a resource and whether it threw. */
  datatype Call = Attempt(step: Step) | Close(resource: Resource, raised: bool)

  /** The order in which `open` makes its calls. */
  const OpenSteps: seq<Step> := [Connect, SetExceptionListener, CreateSession, CreateQueue,
                                 CreateConsumer, SetMessageListener, Start]

  /** The position in `OpenSteps` of the first call that throws, or |OpenSteps| when none does. */
  function FirstFault(faults: set<Step>): (k: nat)
    ensures k <= |OpenSteps|
    ensures forall j :: 0 <= j < k ==> OpenSteps[j] !in faults
    ensures k < |OpenSteps| ==> OpenSteps[k] in faults
  {
    if Connect in faults then 0
    else if SetExceptionListener in faults then 1
    else if CreateSession in faults then 2
    else if CreateQueue in faults then 3
    else if CreateConsumer in faults then 4
    else if SetMessageListener in faults then 5
    else if Start in faults then 6
    else 7
  }

  /** How many calls `open` makes once the URL is accepted: up to and including the first that throws. */
  function CallsMade(faults: set<Step>): nat {
    if FirstFault(faults) < |OpenSteps| then FirstFault(faults) + 1 else |OpenSteps|
  }

  /** The first `n` calls of `open`, in order. */
  function AttemptsUpTo(n: nat): seq<Call>
    requires n <= |OpenSteps|
  {
    if n == 0 then [] else AttemptsUpTo(n - 1) + [Attempt(OpenSteps[n - 1])]
  }

  /** The calls `open` makes once the URL is accepted. */
  function OpenTrace(faults: set<Step>): seq<Call> {
    AttemptsUpTo(CallsMade(faults))
  }

  /**
   * The calls `shutdown` makes: one close per non-null resource, consumer then
   * session then connection, each recording whether it threw.
   */
  function ShutdownTrace(hasConsumer: bool, hasSession: bool, hasConnection: bool,
                         closeFaults: set<Resource>): seq<Call>
  {
    (if hasConsumer then [Close(ConsumerResource, ConsumerResource in closeFaults)] else [])
    + (if hasSession then [Close(SessionResource, SessionResource in closeFaults)] else [])
    + (if hasConnection then [Close(ConnectionResource, ConnectionResource in closeFaults)] else [])
  }

  /**
   * `connectedURI.toString().split("\\?")[0]`: the part of a URI before its
   * first `?`.
   */
  function BeforeQuery(uri: string): (r: string)
    ensures |r| <= |uri| && r == uri[..|r|]
    ensures forall i :: 0 <= i < |r| ==> r[i] != '?'
    ensures |r| < |uri| ==> uri[|r|] == '?'
  {
    if uri == [] || uri[0] == '?' then [] else [uri[0]] + BeforeQuery(uri[1..])
  }

  /** A live transport connection as `update` observes it. */
  class Link {
    const connectedUri: string
    /** The user name and password it authenticated with; null for an anonymous connection. */
    const username: Option<string>
    const password: Option<string>
    /** `isConnected`: cleared by the transport when the link drops. */
    var connected: bool

    constructor (uri: string, username: Option<string>, password: Option<string>)
      ensures connectedUri == uri && this.username == username && this.password == password
      ensures connected
    {
      connectedUri := uri;
      this.username := username;
      this.password := password;
      connected := true;
    }

    /** The transport reports the link lost. */
    method Drop()
      modifies this
      ensures !connected
    {
      connected := false;
    }
  }

  class Session {
    const link: Link

    constructor (link: Link)
      ensures this.link == link
    {
      this.link := link;
    }
  }

  class Consumer {
    const session: Session
    /** The queue the consumer reads. */
    const address: Option<string>

    constructor (session: Session, address: Option<string>)
      ensures this.session == session && this.address == address
    {
      this.session := session;
      this.address := address;
    }
  }

  /**
   * The drift test of `update`, as written: a link is replaced only when its
   * URL (without query), its user name and its password all differ from the
   * broker parameters.
   */
  predicate Drifted(url: string, user: string, password: string, link: Link) {
    && BeforeQuery(link.connectedUri) != url
    && Some(user) != link.username
    && Some(password) != link.password
  }

  class Connection {
    var triggers: set<BuildTrigger>
    const brokerParams: BrokerParams
    var connection: Link?
    var session: Session?
    var messageConsumer: Consumer?
    /** The calls of `open` and `shutdown` that may throw, made so far, in order. */
    ghost var calls: seq<Call>

    /** A consumer is only ever held with its session, and a session with its connection. */
    ghost predicate Valid()
      reads this
    {
      && (messageConsumer != null ==> session != null)
      && (session != null ==> connection != null)
    }

    constructor (brokerParams: BrokerParams)
      ensures Valid()
      ensures this.brokerParams == brokerParams && triggers == {}
      ensures connection == null && session == null && messageConsumer == null && calls == []
    {
      this.brokerParams := brokerParams;
      triggers := {};
      connection, session, messageConsumer := null, null, null;
      calls := [];
    }

    /** Whether `open` connects anonymously: when the user name or the password is empty. */
    function Anonymous(creds: seq<Credential>): bool
      reads this, brokerParams
    {
      brokerParams.user == [] || brokerParams.Password(creds) == []
    }

    /** `addBuildTrigger`: adds a non-null trigger; true when it was not there yet. */
    method AddBuildTrigger(trigger: BuildTrigger?) returns (added: bool)
      requires Valid()
      modifies this`triggers
      ensures Valid()
      ensures trigger == null ==> !added && triggers == old(triggers)
      ensures trigger != null ==> triggers == old(triggers) + {trigger} && added == (trigger !in old(triggers))
    {
      if trigger != null {
        added := trigger !in triggers;
        triggers := triggers + {trigger};
        return;
      }
      return false;
    }

    /**
     * `shutdown`: closes the consumer, the session and the connection, each
     * only if held, and nulls each field whether or not its close throws.
     */
    method Shutdown(closeFaults: set<Resource>)
      requires Valid()
      modifies this`connection, this`session, this`messageConsumer, this`calls
      ensures Valid()
      ensures connection == null && session == null && messageConsumer == null
      ensures calls == old(calls) + ShutdownTrace(old(messageConsumer) != null, old(session) != null,
                                                   old(connection) != null, closeFaults)
    {
      if messageConsumer != null {
        calls := calls + [Close(ConsumerResource, ConsumerResource in closeFaults)];
        messageConsumer := null;
      }
      if session != null {
        calls := calls + [Close(SessionResource, SessionResource in closeFaults)];
        session := null;
      }
      if connection != null {
        calls := calls + [Close(ConnectionResource, ConnectionResource in closeFaults)];
        connection := null;
      }
    }

    /**
     * `open`: with a URL the validator accepts, connects anonymously when the
     * user name or the password is empty and with both otherwise, then listens
     * on the source address (`Listen`). A null or rejected URL returns false at
     * once.
     */
    method Open(check: UrlCheck, creds: seq<Credential>, faults: set<Step>) returns (ok: bool)
      requires Valid()
      modifies this`connection, this`session, this`messageConsumer, this`calls
      ensures Valid()
      ensures !Accepts(check, brokerParams.Url()) ==>
        && !ok && calls == old(calls)
        && connection == old(connection) && session == old(session) && messageConsumer == old(messageConsumer)
      ensures Accepts(check, brokerParams.Url()) ==>
        && calls == old(calls) + OpenTrace(faults)
        && (ok <==> FirstFault(faults) == |OpenSteps|)
        && (if FirstFault(faults) > 0
            then && fresh(connection) && connection.connected
                 && connection.connectedUri == brokerParams.Url().value
                 && connection.username == (if Anonymous(creds) then None else Some(brokerParams.user))
                 && connection.password == (if Anonymous(creds) then None else Some(brokerParams.Password(creds)))
            else connection == old(connection))
        && (if FirstFault(faults) > 2 then fresh(session) && session.link == connection else session == old(session))
        && (if FirstFault(faults) > 4
            then fresh(messageConsumer) && messageConsumer.session == session
                 && messageConsumer.address == brokerParams.sourceAddr
            else messageConsumer == old(messageConsumer))
      ensures old(connection) == null && old(session) == null && old(messageConsumer) == null ==>
        OpenedFromNothing(check, creds, faults)
    {
      var url := brokerParams.Url();
      if !(url.Some? && check(url.value)) {
        return false;
      }
      var user, password := brokerParams.user, brokerParams.Password(creds);
      if user == [] || password == [] {
        ok := Listen(url.value, None, None, brokerParams.sourceAddr, faults);
      } else {
        ok := Listen(url.value, Some(user), Some(password), brokerParams.sourceAddr, faults);
      }
    }

    /**
     * The body of `open` once the URL is accepted: connect with the given user
     * name and password (none for an anonymous connection), register the
     * exception listener, create the session, the queue on `address` and the
     * consumer, set the message listener and start the connection. The first
     * call that throws ends it with false, and the fields assigned up to then
     * keep their new values: nothing is rolled back.
     */
    method Listen(url: string, username: Option<string>, password: Option<string>, address: Option<string>,
                  faults: set<Step>) returns (ok: bool)
      requires Valid()
      modifies this`connection, this`session, this`messageConsumer, this`calls
      ensures Valid()
      ensures calls == old(calls) + OpenTrace(faults)
      ensures ok <==> FirstFault(faults) == |OpenSteps|
      // the connection is replaced once Connect succeeds
      ensures if FirstFault(faults) > 0
        then && fresh(connection) && connection.connected && connection.connectedUri == url
             && connection.username == username && connection.password == password
        else connection == old(connection)
      // the session once CreateSession succeeds
      ensures if FirstFault(faults) > 2 then fresh(session) && session.link == connection else session == old(session)
      // the consumer once CreateConsumer succeeds
      ensures if FirstFault(faults) > 4
        then fresh(messageConsumer) && messageConsumer.session == session && messageConsumer.address == address
        else messageConsumer == old(messageConsumer)
    {
      // the calls made so far, logged when `open` returns
      ghost var made: seq<Call> := [];
      made := made + [Attempt(Connect)];
      if Connect in faults {
        assert made == AttemptsUpTo(1);
        calls := calls + made;
        return false;
      }
      connection := new Link(url, username, password);
      made := made + [Attempt(SetExceptionListener)];
      if SetExceptionListener in faults {
        assert made == AttemptsUpTo(2);
        calls := calls + made;
        return false;
      }
      made := made + [Attempt(CreateSession)];
      if CreateSession in faults {
        assert made == AttemptsUpTo(3);
        calls := calls + made;
        return false;
      }
      session := new Session(connection);
      made := made + [Attempt(CreateQueue)];
      if CreateQueue in faults {
        assert made == AttemptsUpTo(4);
        calls := calls + made;
        return false;
      }
      made := made + [Attempt(CreateConsumer)];
      if CreateConsumer in faults {
        assert made == AttemptsUpTo(5);
        calls := calls + made;
        return false;
      }
      messageConsumer := new Consumer(session, address);
      made := made + [Attempt(SetMessageListener)];
      if SetMessageListener in faults {
        assert made == AttemptsUpTo(6);
        calls := calls + made;
        return false;
      }
      made := made + [Attempt(Start)];
      if Start in faults {
        assert made == AttemptsUpTo(7);
        calls := calls + made;
        return false;
      }
      assert made == AttemptsUpTo(7);
      calls := calls + made;
      return true;
    }

    /**
     * Whether `update` shuts the held connection down: its URL (without query),
     * user name and password have all changed, or the transport lost it.
     */
    ghost predicate Stale(creds: seq<Credential>)
      reads this, brokerParams, connection
    {
      && connection != null && brokerParams.Url().Some?
      && (Drifted(brokerParams.Url().value, brokerParams.user, brokerParams.Password(creds), connection)
          || !connection.connected)
    }

    /**
     * What `open` leaves when it starts with nothing held: a live connection to
     * the configured URL, with the configured user name and password unless
     * anonymous, once Connect succeeds; a session on it once CreateSession
     * succeeds; a consumer on the source address once CreateConsumer succeeds.
     */
    ghost predicate OpenedFromNothing(check: UrlCheck, creds: seq<Credential>, faults: set<Step>)
      reads this, brokerParams, connection, session, messageConsumer
    {
      && (connection != null <==> Accepts(check, brokerParams.Url()) && FirstFault(faults) > 0)
      && (session != null <==> Accepts(check, brokerParams.Url()) && FirstFault(faults) > 2)
      && (messageConsumer != null <==> Accepts(check, brokerParams.Url()) && FirstFault(faults) > 4)
      && (connection != null ==>
            && connection.connected && connection.connectedUri == brokerParams.Url().value
            && connection.username == (if Anonymous(creds) then None else Some(brokerParams.user))
            && connection.password == (if Anonymous(creds) then None else Some(brokerParams.Password(creds))))
      && (session != null ==> session.link == connection)
      && (messageConsumer != null ==> messageConsumer.session == session && messageConsumer.address == brokerParams.sourceAddr)
    }

    /**
     * `update`: reconciles the connection with the broker parameters. Invalid
     * parameters shut it down. A stale connection is shut down; then, when no
     * connection is held, `open` runs. With a connection held and a null
     * normalised URL the drift test dereferences null: `completed` is false
     * and nothing has changed.
     */
    method Update(check: UrlCheck, creds: seq<Credential>, faults: set<Step>, closeFaults: set<Resource>)
      returns (completed: bool)
      requires Valid()
      modifies this`connection, this`session, this`messageConsumer, this`calls
      ensures Valid()
      // invalid parameters: shut down, never connect
      ensures !brokerParams.IsValid(check) ==>
        && completed && connection == null && session == null && messageConsumer == null
        && calls == old(calls) + ShutdownTrace(old(messageConsumer) != null, old(session) != null,
                                               old(connection) != null, closeFaults)
      // the null URL reaches the drift test
      ensures brokerParams.IsValid(check) && old(connection) != null && brokerParams.Url().None? ==>
        !completed && unchanged(this)
      // a live connection that has not drifted is kept as it is
      ensures brokerParams.IsValid(check) && old(connection) != null && brokerParams.Url().Some? && !old(Stale(creds)) ==>
        completed && unchanged(this)
      // otherwise: shut down what is held, then open
      ensures brokerParams.IsValid(check) && (old(connection) == null || old(Stale(creds))) ==>
        && completed
        && calls == old(calls) + ShutdownTrace(old(messageConsumer) != null, old(session) != null,
                                               old(connection) != null, closeFaults)
                               + (if Accepts(check, brokerParams.Url()) then OpenTrace(faults) else [])
        && OpenedFromNothing(check, creds, faults)
        && (connection != null ==> fresh(connection))
        && (session != null ==> fresh(session))
        && (messageConsumer != null ==> fresh(messageConsumer))
    {
      if connection == null {
        // nothing held: no close call precedes `open`
        assert ShutdownTrace(false, false, false, closeFaults) == [];
        assert old(calls) + [] == old(calls);
      }
      if !brokerParams.IsValid(check) {
        Shutdown(closeFaults);
        return true;
      }
      if connection != null {
        var url := brokerParams.Url();
        if url.None? {
          return false;
        }
        if Drifted(url.value, brokerParams.user, brokerParams.Password(creds), connection) {
          Shutdown(closeFaults);
        }
      }
      if connection != null && !connection.connected {
        Shutdown(closeFaults);
      }
      if connection == null {
        ghost var before := calls;
        var _ := Open(check, creds, faults);
        assert calls == before + (if Accepts(check, brokerParams.Url()) then OpenTrace(faults) else []);
      }
      return true;
    }
  }

  // ----- Properties -----

  /** The first `n` calls of `open` are its first `n` steps, one call each. */
  lemma {:induction false} AttemptsAreSteps(n: nat)
    requires n <= |OpenSteps|
    ensures |AttemptsUpTo(n)| == n
    ensures forall i :: 0 <= i < n ==> AttemptsUpTo(n)[i] == Attempt(OpenSteps[i])
  {
    if n > 0 {
      AttemptsAreSteps(n - 1);
    }
  }

  /**
   * `open` makes its calls in order and stops at the first that throws: every
   * call but the last succeeded, the last is the failing one when there is
   * one, and all seven are made exactly when none fails.
   */
  lemma OpenStopsAtFirstFault(faults: set<Step>)
    ensures 0 < |OpenTrace(faults)| <= |OpenSteps|
    ensures forall i :: 0 <= i < |OpenTrace(faults)| ==> OpenTrace(faults)[i] == Attempt(OpenSteps[i])
    ensures forall i :: 0 <= i < |OpenTrace(faults)| - 1 ==> OpenSteps[i] !in faults
    ensures (exists s :: s in faults) ==> OpenSteps[|OpenTrace(faults)| - 1] in faults
    ensures |OpenTrace(faults)| == |OpenSteps| <==> forall i :: 0 <= i < |OpenSteps| - 1 ==> OpenSteps[i] !in faults
  {
    AttemptsAreSteps(CallsMade(faults));
    if s :| s in faults {
      // every step is one of the seven, so some call fails
      assert s == OpenSteps[0] || s == OpenSteps[1] || s == OpenSteps[2] || s == OpenSteps[3]
          || s == OpenSteps[4] || s == OpenSteps[5] || s == OpenSteps[6];
      assert FirstFault(faults) < |OpenSteps|;
    }
  }

  /** `shutdown` only closes: it never attempts a step of `open`, and with nothing held it makes no call. */
  lemma ShutdownOnlyCloses(hasConsumer: bool, hasSession: bool, hasConnection: bool, closeFaults: set<Resource>)
    ensures forall c :: c in ShutdownTrace(hasConsumer, hasSession, hasConnection, closeFaults) ==> c.Close?
    ensures |ShutdownTrace(hasConsumer, hasSession, hasConnection, closeFaults)|
            == (if hasConsumer then 1 else 0) + (if hasSession then 1 else 0) + (if hasConnection then 1 else 0)
  {
  }

  /** A URL without a query part is its own `BeforeQuery`. */
  lemma NoQueryIsKept(uri: string)
    requires forall i :: 0 <= i < |uri| ==> uri[i] != '?'
    ensures BeforeQuery(uri) == uri
  {
  }

  /**
   * The drift test as written never fires for a link opened on a query-free
   * URL that is still configured, nor for one whose user name is still the
   * configured one: a changed URL alone, or a changed password alone, keeps the
   * old connection.
   */
  lemma DriftNeedsEverythingChanged(url: string, user: string, password: string, link: Link)
    ensures link.connectedUri == url && (forall i :: 0 <= i < |url| ==> url[i] != '?')
            ==> !Drifted(url, user, password, link)
    ensures link.username == Some(user) ==> !Drifted(url, user, password, link)
    ensures link.password == Some(password) ==> !Drifted(url, user, password, link)
  {
    if link.connectedUri == url && (forall i :: 0 <= i < |url| ==> url[i] != '?') {
      NoQueryIsKept(url);
    }
  }

  /**
   * A link opened on the configured, query-free URL is never stale while the
   * transport keeps it up, whatever became of the session and consumer. So
   * after an `open` that failed past Connect (a live link, no consumer),
   * `update` keeps the link and never creates the consumer while it stays up.
   */
  lemma LiveLinkIsKept(c: Connection, creds: seq<Credential>)
    requires c.connection != null && c.connection.connected
    requires c.brokerParams.Url().Some? && c.connection.connectedUri == c.brokerParams.Url().value
    requires forall i :: 0 <= i < |c.connection.connectedUri| ==> c.connection.connectedUri[i] != '?'
    ensures !c.Stale(creds)
  {
    NoQueryIsKept(c.connection.connectedUri);
  }
}
