/**
 * The request context: the `SESSION_SECRET` guard, and the cart whose id
 * storage is wrapped so that the id is also kept in the storefront session,
 * which takes precedence when it holds one.
 */
module AppContext {
  import opened Wrappers
  import opened Session

  const MissingSecret := "SESSION_SECRET environment variable is not set"

  /** `!env?.SESSION_SECRET`: an absent environment, an absent secret or an empty one. */
  predicate SecretMissing(env: Option<map<string, string>>) {
    env.None? || "SESSION_SECRET" !in env.value || env.value["SESSION_SECRET"] == ""
  }

  /**
   * The guard and the session it opens: with the secret missing the context
   * fails with the guard's message and no session is opened; otherwise the
   * session comes from the cookie and is not pending.
   */
  method OpenSession(env: Option<map<string, string>>, cookie: Option<SessionData>) returns (r: Result<AppSession>)
    ensures r.Err? <==> SecretMissing(env)
    ensures r.Err? ==> r.message == MissingSecret
    ensures r.Ok? ==> fresh(r.value) && !r.value.isPending
                      && r.value.data == (if cookie.Some? then cookie.value else Empty)
  {
    if env.None? || "SESSION_SECRET" !in env.value || env.value["SESSION_SECRET"] == "" {
      return Err(MissingSecret);
    }
    var session := new AppSession(cookie);
    r := Ok(session);
  }

  /** The Set-Cookie header the SDK cart's `setCartId` returns. */
  datatype CartHeaders = CartCookie(cartId: string)

  /** The SDK cart's own id storage (a cookie), seen only through `getCartId` and `setCartId`. */
  class SdkCart {
    var cartId: Option<string>

    constructor(id: Option<string>)
      ensures cartId == id
    {
      cartId := id;
    }

    method GetCartId() returns (id: Option<string>)
      ensures id == cartId
    {
      id := cartId;
    }

    method SetCartId(id: string) returns (h: CartHeaders)
      modifies this
      ensures cartId == Some(id) && h == CartCookie(id)
    {
      cartId := Some(id);
      h := CartCookie(id);
    }
  }

  /** `session.get('cartId') || originalCart.getCartId()`: a non-empty session id wins. */
  function ReadCartId(d: SessionData, sdkId: Option<string>): (r: Option<string>)
    ensures "cartId" in d.values && d.values["cartId"] != "" ==> r == Some(d.values["cartId"])
    ensures "cartId" !in d.values && "cartId" in d.flashes && d.flashes["cartId"] != "" ==> r == Some(d.flashes["cartId"])
    ensures (("cartId" in d.values ==> d.values["cartId"] == "")
             && ("cartId" !in d.values && "cartId" in d.flashes ==> d.flashes["cartId"] == ""))
            ==> r == sdkId
  {
    var s := Read(d, "cartId").0;
    if s.Some? && s.value != "" then s else sdkId
  }

  /** After a successful write of a non-empty id, the wrapped cart reads that id back, whatever the SDK holds. */
  lemma SetThenGetCartId(d: SessionData, id: string, sdkId: Option<string>)
    requires id != ""
    ensures ReadCartId(SetValue(d, "cartId", id), sdkId) == Some(id)
  {
  }

  /** With the session write swallowed, the id still comes back through the SDK when the session holds none. */
  lemma RejectedWriteFallsBack(d: SessionData, id: string)
    requires !HasKey(d, "cartId")
    ensures ReadCartId(d, Some(id)) == Some(id)
  {
  }

  /** The cart the context hands out: the SDK cart with `getCartId` and `setCartId` replaced. */
  class WrappedCart {
    const session: AppSession
    const original: SdkCart

    constructor(session: AppSession, original: SdkCart)
      ensures this.session == session && this.original == original
    {
      this.session := session;
      this.original := original;
    }

    method GetCartId() returns (id: Option<string>)
      modifies session
      ensures id == ReadCartId(old(session.data), original.cartId)
      ensures session.data == Read(old(session.data), "cartId").1
      ensures session.isPending == old(session.isPending)
    {
      id := session.Get("cartId");
      if id.None? || id.value == "" {
        id := original.GetCartId();
      }
    }

    /**
     * `setCartId(id)`: the id goes into the session (a throwing write is
     * swallowed), then the SDK stores it and its headers are returned.
     */
    method SetCartId(id: string, sessionWriteThrows: bool) returns (h: CartHeaders)
      modifies session, original
      ensures session.isPending
      ensures session.data == if sessionWriteThrows then old(session.data) else SetValue(old(session.data), "cartId", id)
      ensures original.cartId == Some(id) && h == CartCookie(id)
    {
      if sessionWriteThrows {
        session.SetRejected("cartId");
      } else {
        session.Set("cartId", id);
      }
      h := original.SetCartId(id);
    }
  }

  /** Which implementation a cart member resolves to. */
  datatype Impl = Original(member: string) | Wrapped(member: string)

  /** `{...originalCart, getCartId, setCartId}`: the overrides replace, every other member is the original's. */
  function SpreadCart(members: set<string>): (r: map<string, Impl>)
    ensures r.Keys == members + {"getCartId", "setCartId"}
    ensures r["getCartId"] == Wrapped("getCartId") && r["setCartId"] == Wrapped("setCartId")
    ensures forall m :: m in members && m != "getCartId" && m != "setCartId" ==> r[m] == Original(m)
  {
    var originals := map m | m in members :: Original(m);
    originals + map["getCartId" := Wrapped("getCartId"), "setCartId" := Wrapped("setCartId")]
  }
}
