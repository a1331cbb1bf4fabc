/** The backend client's own state: the session token kept in memory and in
    the browser's key/value storage, the headers of every request, the error
    a refused request raises, and what logging in stores. The transport is
    not modelled: the backend's answer is a parameter. */
module Api {

  import opened Types

  const TokenKey: string := "token"
  const UserKey: string := "user"
  const RestaurantKey: string := "restaurant"
  const DefaultError: string := "Xatolik yuz berdi"

  /** The signed-in staff member and their restaurant, as the backend sends them. */
  datatype User = User(id: string, name: string, phone: string, role: string, restaurantId: string)
  datatype Restaurant = Restaurant(id: string, name: string)

  /** A storage entry: plain text, or a record kept as the JSON text it was
      written as. */
  datatype Entry = Text(text: string) | UserRecord(user: User) | RestaurantRecord(restaurant: Restaurant)

  /** `localStorage.getItem('token')`. */
  function StoredToken(storage: map<string, Entry>): (r: Option<string>)
    ensures r.Some? <==> TokenKey in storage && storage[TokenKey].Text?
    ensures r.Some? ==> r.value == storage[TokenKey].text
  {
    if TokenKey in storage && storage[TokenKey].Text? then Some(storage[TokenKey].text) else None
  }

  /** What `getToken` returns: a non-empty cached token as it is, otherwise
      whatever storage holds (which then becomes the cache). */
  function CachedToken(cache: Option<string>, storage: map<string, Entry>): (r: Option<string>)
    ensures Truthy(cache) ==> r == cache
    ensures !Truthy(cache) ==> r == StoredToken(storage)
  {
    if Truthy(cache) then cache else StoredToken(storage)
  }

  /** After `setToken(t)`, `getToken()` gives `t` back, even an empty one
      (the empty cache falls through to the stored copy). */
  lemma SetThenGet(t: string, storage: map<string, Entry>)
    ensures CachedToken(Some(t), storage[TokenKey := Text(t)]) == Some(t)
  {
  }

  /** After `clearToken()`, `getToken()` finds no token. */
  lemma ClearThenGet(storage: map<string, Entry>)
    ensures CachedToken(None, storage - {TokenKey, UserKey, RestaurantKey}) == None
  {
    assert TokenKey !in storage - {TokenKey, UserKey, RestaurantKey};
  }

  /** `getStoredUser`: the staff record written at login, if any. */
  function StoredUser(storage: map<string, Entry>): (r: Option<User>)
    ensures r.Some? <==> UserKey in storage && storage[UserKey].UserRecord?
    ensures r.Some? ==> r.value == storage[UserKey].user
  {
    if UserKey in storage && storage[UserKey].UserRecord? then Some(storage[UserKey].user) else None
  }

  /** `getStoredRestaurant`: the restaurant record written at login, if any. */
  function StoredRestaurant(storage: map<string, Entry>): (r: Option<Restaurant>)
    ensures r.Some? <==> RestaurantKey in storage && storage[RestaurantKey].RestaurantRecord?
    ensures r.Some? ==> r.value == storage[RestaurantKey].restaurant
  {
    if RestaurantKey in storage && storage[RestaurantKey].RestaurantRecord? then Some(storage[RestaurantKey].restaurant) else None
  }

  /** The headers of a request: JSON content, the bearer token when there is
      one, and the caller's own headers, which win over both. */
  function Headers(token: Option<string>, caller: map<string, string>): (h: map<string, string>)
    ensures forall k :: k in caller ==> k in h && h[k] == caller[k]
    ensures forall k :: k in h ==> k in caller || k == "Content-Type" || k == "Authorization"
    ensures "Content-Type" in h
    ensures "Content-Type" !in caller ==> h["Content-Type"] == "application/json"
    ensures "Authorization" !in caller ==> ("Authorization" in h <==> Truthy(token))
    ensures "Authorization" !in caller && Truthy(token) ==> h["Authorization"] == "Bearer " + token.value
  {
    var base := map["Content-Type" := "application/json"];
    var auth: map<string, string> := if Truthy(token) then map["Authorization" := "Bearer " + token.value] else map[];
    base + auth + caller
  }

  /** The body of a refused request: not JSON at all, or JSON with or
      without a `message`. */
  datatype ErrorBody = NotJson | ErrorJson(message: Option<string>)

  /** The message of the error a refused request throws. */
  function ErrorMessage(body: ErrorBody): (m: string)
    ensures m != ""
    ensures body.ErrorJson? && Truthy(body.message) ==> m == body.message.value
    ensures body.NotJson? || !Truthy(body.message) ==> m == DefaultError
  {
    if body.ErrorJson? && Truthy(body.message) then body.message.value else DefaultError
  }

  /** What the backend did with a request. */
  datatype Reply<T> = Accepted(value: T) | Refused(body: ErrorBody)

  /** The login answer. */
  datatype Session = Session(staff: User, token: string, restaurant: Restaurant)

  class ApiService {
    /** The in-memory token (`null` at start). */
    var token: Option<string>
    /** The browser's `localStorage`. */
    var storage: map<string, Entry>

    constructor (storage0: map<string, Entry>)
      ensures token == None && storage == storage0
    {
      token, storage := None, storage0;
    }

    /** `setToken`: cache and store the token. */
    method SetToken(t: string)
      modifies this`token, this`storage
      ensures token == Some(t)
      ensures storage == old(storage)[TokenKey := Text(t)]
    {
      token := Some(t);
      storage := storage[TokenKey := Text(t)];
    }

    /** `getToken`: the cached token when it is non-empty, without reading
        storage; otherwise the stored one, which is cached. */
    method GetToken() returns (r: Option<string>)
      modifies this`token
      ensures r == CachedToken(old(token), storage) && token == r
      ensures Truthy(old(token)) ==> token == old(token)
    {
      if Truthy(token) {
        return token;
      }
      token := StoredToken(storage);
      return token;
    }

    /** `clearToken`: forget the token and remove exactly the three session
        entries from storage. */
    method ClearToken()
      modifies this`token, this`storage
      ensures token == None
      ensures storage == old(storage) - {TokenKey, UserKey, RestaurantKey}
      ensures forall k :: k in old(storage) && k != TokenKey && k != UserKey && k != RestaurantKey ==>
        k in storage && storage[k] == old(storage)[k]
    {
      token := None;
      storage := storage - {TokenKey, UserKey, RestaurantKey};
    }

    /** `request`: send with the composed headers; a refused request fails
        with the server's message or the default one. */
    method Request<T>(caller: map<string, string>, reply: Reply<T>)
      returns (sent: map<string, string>, r: Result<T>)
      modifies this`token
      ensures sent == Headers(CachedToken(old(token), storage), caller)
      ensures token == CachedToken(old(token), storage)
      ensures reply.Accepted? ==> r == Ok(reply.value)
      ensures reply.Refused? ==> r == Err(ErrorMessage(reply.body))
    {
      var t := GetToken();
      sent := Headers(t, caller);
      match reply
      case Accepted(value) => r := Ok(value);
      case Refused(body) => r := Err(ErrorMessage(body));
    }

    /** `login`: on success the token is set and the staff member and the
        restaurant are stored; on failure storage is untouched. */
    method Login(reply: Reply<Session>) returns (r: Result<Session>)
      modifies this`token, this`storage
      ensures reply.Accepted? ==>
        && r == Ok(reply.value)
        && token == Some(reply.value.token)
        && storage == old(storage)[TokenKey := Text(reply.value.token)]
                                  [UserKey := UserRecord(reply.value.staff)]
                                  [RestaurantKey := RestaurantRecord(reply.value.restaurant)]
      ensures reply.Refused? ==>
        r == Err(ErrorMessage(reply.body)) && storage == old(storage)
        && token == CachedToken(old(token), old(storage))
    {
      var sent, answer := Request(map[], reply);
      if answer.Err? {
        return Err(answer.message);
      }
      var session := answer.value;
      SetToken(session.token);
      storage := storage[UserKey := UserRecord(session.staff)][RestaurantKey := RestaurantRecord(session.restaurant)];
      return Ok(session);
    }
  }

  /** What login leaves in storage reads back: the token, the staff member
      and the restaurant. */
  lemma LoginStored(storage: map<string, Entry>, s: Session)
    ensures var after := storage[TokenKey := Text(s.token)][UserKey := UserRecord(s.staff)]
                                [RestaurantKey := RestaurantRecord(s.restaurant)];
      StoredToken(after) == Some(s.token)
      && StoredUser(after) == Some(s.staff)
      && StoredRestaurant(after) == Some(s.restaurant)
  {
  }
}
