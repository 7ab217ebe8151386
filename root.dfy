/**
 * The application root (app/root.tsx): a loader that resolves the session on
 * the server, and the `App` component that mirrors it in the browser.
 *
 * `App` creates one browser client for its lifetime and subscribes an
 * auth-change listener in an effect that depends on the server-rendered
 * access token. The listener asks for a revalidation of the loader data when
 * the access token it is notified of differs from the server-rendered one.
 * The effect's cleanup unsubscribes the listener, so each effect run owns at
 * most one live subscription.
 */
module Root {
  import opened Http
  import AuthServer

  datatype Env = Env(supabaseUrl: string, supabasePublicKey: string)

  /** The loader's JSON. */
  datatype RootData = RootData(env: Env, session: Option<Session>)

  /**
   * The loader. `ownClientHeaders` are the cookie mutations of the server
   * client the loader creates for its headers; `session` is the provider's
   * `getSession` reply. The session lookup goes through a server client of
   * its own whose cookie mutations are not forwarded.
   */
  function Loader(env: Env, ownClientHeaders: Headers, session: Option<Session>): (r: Response<RootData>)
    ensures r.Reply? && r.status == 200
    ensures r.headers == ownClientHeaders
    ensures r.body.env == env && r.body.session == session
  {
    Reply(200, RootData(env, AuthServer.GetSession(session)), ownClientHeaders)
  }

  /** `session?.access_token`. */
  function AccessToken(session: Option<Session>): (token: Option<string>)
    ensures token.Some? <==> session.Some?
    ensures token.Some? ==> token.value == session.value.accessToken
  {
    match session
    case None => None
    case Some(s) => Some(s.accessToken)
  }

  /**
   * The listener's test: revalidate when the notified session's access token
   * differs from the server-rendered one; absent against absent is equal.
   */
  function ShouldRevalidate(notified: Option<Session>, serverToken: Option<string>): (revalidate: bool)
    ensures notified.None? && serverToken.None? ==> !revalidate
    ensures notified.None? && serverToken.Some? ==> revalidate
    ensures notified.Some? ==> (revalidate <==> serverToken != Some(notified.value.accessToken))
  {
    AccessToken(notified) != serverToken
  }

  /** The browser client built from the loader's environment. */
  datatype BrowserClient = BrowserClient(url: string, key: string)

  /** The context handed to every route below the root. */
  datatype OutletContext = OutletContext(supabase: BrowserClient, session: Option<Session>)

  /** A live auth-change subscription and the server access token its effect run closed over. */
  datatype Listener = Listener(id: nat, serverToken: Option<string>)

  class App {
    /** The loader data of the current render. */
    var data: RootData
    /** Created by the `useState` initializer on the first render only. */
    const supabase: BrowserClient
    /** The provider's live subscriptions registered by this component. */
    var listeners: seq<Listener>
    var nextId: nat
    /** How many times a listener called `revalidate`. */
    var revalidations: nat

    ghost predicate Valid()
      reads this
    {
      && |listeners| <= 1
      && (forall i :: 0 <= i < |listeners| ==> listeners[i].id < nextId)
    }

    /** Whether the live subscription closed over the current server token. */
    ghost predicate Synced()
      reads this
    {
      |listeners| == 1 && listeners[0].serverToken == AccessToken(data.session)
    }

    /** First render and the first run of the effect. */
    constructor (initial: RootData)
      ensures Valid() && Synced()
      ensures data == initial && revalidations == 0
      ensures supabase == BrowserClient(initial.env.supabaseUrl, initial.env.supabasePublicKey)
    {
      data := initial;
      supabase := BrowserClient(initial.env.supabaseUrl, initial.env.supabasePublicKey);
      listeners := [Listener(0, AccessToken(initial.session))];
      nextId := 1;
      revalidations := 0;
    }

    /** A render: the context is exactly the one client and the current session. */
    method Render() returns (context: OutletContext)
      ensures context.supabase == supabase && context.session == data.session
    {
      context := OutletContext(supabase, data.session);
    }

    /** The effect's cleanup: unsubscribe the live listener. */
    method Unsubscribe()
      requires Valid()
      modifies this
      ensures Valid() && listeners == []
      ensures data == old(data) && revalidations == old(revalidations)
    {
      listeners := [];
    }

    /** A run of the effect: subscribe one listener that closes over the current server token. */
    method Subscribe()
      requires Valid() && listeners == []
      modifies this
      ensures Valid() && Synced()
      ensures data == old(data) && revalidations == old(revalidations)
    {
      listeners := [Listener(nextId, AccessToken(data.session))];
      nextId := nextId + 1;
    }

    /**
     * New loader data (after a navigation or a revalidation). The client is
     * kept; when the server access token changed, the effect is torn down
     * and runs again, so exactly one listener stays live.
     */
    method ReceiveLoaderData(next: RootData)
      requires Valid() && Synced()
      modifies this
      ensures Valid() && Synced()
      ensures data == next && revalidations == old(revalidations)
      ensures AccessToken(next.session) == AccessToken(old(data).session) ==> listeners == old(listeners)
    {
      var changed := AccessToken(next.session) != AccessToken(data.session);
      data := next;
      if changed {
        Unsubscribe();
        Subscribe();
      }
    }

    /**
     * The provider notifies the live listeners of an auth change; each calls
     * `revalidate` when the notified token differs from the one it closed over.
     */
    method Notify(notified: Option<Session>) returns (revalidate: bool)
      requires Valid()
      modifies this
      ensures Valid()
      ensures revalidate <==> |listeners| == 1 && ShouldRevalidate(notified, listeners[0].serverToken)
      ensures revalidations == old(revalidations) + (if revalidate then 1 else 0)
      ensures data == old(data) && listeners == old(listeners)
    {
      revalidate := |listeners| == 1 && ShouldRevalidate(notified, listeners[0].serverToken);
      if revalidate {
        revalidations := revalidations + 1;
      }
    }

    /** Once the server data has caught up with the client's token, a notification of it asks for nothing. */
    method NotifyAfterSync(notified: Option<Session>) returns (revalidate: bool)
      requires Valid() && Synced() && AccessToken(notified) == AccessToken(data.session)
      modifies this
      ensures !revalidate && revalidations == old(revalidations)
    {
      revalidate := Notify(notified);
    }
  }
}
