/** The global provider (src/context/GlobalContext.tsx): the session, the
    registered accounts, the cart and the catalog filters. Its React state
    becomes the fields of `Provider`; each handler becomes a method. The
    browser storage behind the accounts list and the saved cart is the
    `usersDb` field and the constructor's arguments. */
module GlobalContext {
  import opened Common
  import opened StoreCard
  import opened Cart

  datatype Role = AdminRole | UserRole | NonUserRole

  /** The session user. */
  datatype User = User(uid: string, email: string, displayName: string, role: Role)

  /** A registered account as kept in the accounts list. */
  datatype StoredAccount = StoredAccount(uid: string, name: string, email: string, password: string)

  /** The catalog filters. `searchQueryId` is read by the catalog, but the
      provider neither initialises nor sets it, so here it stays "". */
  datatype FilterState = FilterState(
    searchQuery: string, category: string, minPrice: int, maxPrice: int,
    sortOption: string, searchQueryId: string)

  const InitialFilters: FilterState := FilterState("", "All Products", 0, 10000000, "Recommended", "")

  const AdminEmail: string := "admin@vitalix.com"
  const AdminPassword: string := "admin123"
  const AdminSession: User := User("admin-001", AdminEmail, "Administrator", AdminRole)

  /** `usersDb.find(u => u.email === email && u.password === pass)`, as a position. */
  function FindAccount(db: seq<StoredAccount>, email: string, pass: string): (r: Option<nat>)
    ensures r.Some? ==> r.value < |db| && db[r.value].email == email && db[r.value].password == pass
    ensures r.Some? ==> forall j :: 0 <= j < r.value ==> !(db[j].email == email && db[j].password == pass)
    ensures r.None? <==> forall i :: 0 <= i < |db| ==> !(db[i].email == email && db[i].password == pass)
  {
    if db == [] then None
    else if db[0].email == email && db[0].password == pass then Some(0)
    else match FindAccount(db[1..], email, pass)
      case None => None
      case Some(k) => Some(k + 1)
  }

  /** `usersDb.find(u => u.email === email)` found something. */
  predicate EmailRegistered(db: seq<StoredAccount>, email: string) {
    exists i :: 0 <= i < |db| && db[i].email == email
  }

  ghost predicate EmailsUnique(db: seq<StoredAccount>) {
    forall i, j :: 0 <= i < j < |db| ==> db[i].email != db[j].email
  }

  /** The session `login` opens, or None when it answers "Credenciales
      incorrectas": the hard-coded administrator pair gets the admin role, a
      stored email and password pair gets the user role, and nothing else
      gets in. */
  function LoginSession(db: seq<StoredAccount>, email: string, pass: string): (r: Option<User>)
    ensures r.Some? <==>
      (email == AdminEmail && pass == AdminPassword)
      || exists i :: 0 <= i < |db| && db[i].email == email && db[i].password == pass
    ensures (r.Some? && r.value.role == AdminRole) <==> (email == AdminEmail && pass == AdminPassword)
    ensures r.Some? ==> r.value.email == email && r.value.role != NonUserRole
  {
    if email == AdminEmail && pass == AdminPassword then Some(AdminSession)
    else match FindAccount(db, email, pass)
      case Some(i) => Some(User(db[i].uid, db[i].email, db[i].name, UserRole))
      case None => None
  }

  /** A registration adds an email the list did not hold, so emails stay unique. */
  lemma RegisterKeepsEmailsUnique(db: seq<StoredAccount>, account: StoredAccount)
    requires EmailsUnique(db) && !EmailRegistered(db, account.email)
    ensures EmailsUnique(db + [account])
  {
  }

  /** Whoever registers can then log in with the same email and password, as
      a regular user with the name they registered (the administrator pair
      aside). */
  lemma RegisterThenLogin(db: seq<StoredAccount>, uid: string, name: string, email: string, pass: string)
    requires !EmailRegistered(db, email)
    requires !(email == AdminEmail && pass == AdminPassword)
    ensures LoginSession(db + [StoredAccount(uid, name, email, pass)], email, pass)
      == Some(User(uid, email, name, UserRole))
  {
    var db' := db + [StoredAccount(uid, name, email, pass)];
    assert db'[|db|].email == email;
    var r := FindAccount(db', email, pass);
    assert r == Some(|db|);
  }

  class Provider {
    var user: Option<User>
    var authLoading: bool
    var usersDb: seq<StoredAccount>
    var cart: seq<CartItem>
    var filters: FilterState

    /** First render: no session yet, auth still loading, the saved cart and
        the saved accounts list restored, the initial filters. */
    constructor(savedCart: seq<CartItem>, savedAccounts: seq<StoredAccount>)
      ensures user == None && authLoading
      ensures cart == savedCart && usersDb == savedAccounts && filters == InitialFilters
    {
      user := None;
      authLoading := true;
      usersDb := savedAccounts;
      cart := savedCart;
      filters := InitialFilters;
    }

    /** The mount effect: restore the stored session, if one parses, and stop loading. */
    method RestoreSession(storedUser: Option<User>)
      modifies this`user, this`authLoading
      ensures user == (if storedUser.Some? then storedUser else old(user))
      ensures !authLoading
    {
      if storedUser.Some? {
        user := storedUser;
      }
      authLoading := false;
    }

    /** `login`: on success the session is `LoginSession`; on failure the
        session stays as it was. Loading is off afterwards either way. */
    method Login(email: string, pass: string) returns (ok: bool)
      modifies this`user, this`authLoading
      ensures ok <==> LoginSession(usersDb, email, pass).Some?
      ensures user == (if ok then LoginSession(usersDb, email, pass) else old(user))
      ensures !authLoading
    {
      authLoading := true;
      if email == AdminEmail && pass == AdminPassword {
        user := Some(AdminSession);
        authLoading := false;
        return true;
      }
      var found := FindAccount(usersDb, email, pass);
      if found.Some? {
        var account := usersDb[found.value];
        user := Some(User(account.uid, account.email, account.name, UserRole));
        authLoading := false;
        ok := true;
      } else {
        authLoading := false;
        ok := false;
      }
    }

    /** `register`: an email already in the list is refused and nothing
        changes; otherwise exactly one account is appended, with the clock
        reading `now` as its uid, and a user session for it is opened. */
    method Register(name: string, email: string, pass: string, now: nat) returns (ok: bool)
      modifies this`user, this`authLoading, this`usersDb
      ensures ok <==> !EmailRegistered(old(usersDb), email)
      ensures ok ==> usersDb == old(usersDb) + [StoredAccount(NatToString(now), name, email, pass)]
      ensures ok ==> user == Some(User(NatToString(now), email, name, UserRole))
      ensures !ok ==> usersDb == old(usersDb) && user == old(user)
      ensures old(EmailsUnique(usersDb)) ==> EmailsUnique(usersDb)
      ensures !authLoading
    {
      authLoading := true;
      if EmailRegistered(usersDb, email) {
        authLoading := false;
        return false;
      }
      var account := StoredAccount(NatToString(now), name, email, pass);
      if EmailsUnique(usersDb) {
        RegisterKeepsEmailsUnique(usersDb, account);
      }
      usersDb := usersDb + [account];
      user := Some(User(account.uid, account.email, account.name, UserRole));
      authLoading := false;
      ok := true;
    }

    method Logout()
      modifies this`user
      ensures user == None
    {
      user := None;
    }

    /** `addToCart`: the stock check, then the cart updater. */
    method AddToCart(product: Product) returns (notice: AddNotice)
      modifies this`cart
      ensures cart == CartAfterAdd(old(cart), product)
      ensures notice == AddNoticeFor(old(cart), product)
      ensures old(ValidCart(cart)) ==> ValidCart(cart)
    {
      var available := StockOf(product);
      if available <= 0 {
        return SoldOutNotice;
      }
      ghost var prev := cart;
      var existing := FindItem(cart, product.id);
      if existing.Some? {
        if cart[existing.value].quantity + 1 > available {
          return StockLimitNotice(available);
        }
        cart := IncrementMatching(cart, product.id);
        notice := QuantityUpdatedNotice;
      } else {
        cart := cart + [CartItem(product, 1)];
        notice := AddedNotice;
      }
      if ValidCart(prev) {
        AddPreservesValid(prev, product);
      }
    }

    method RemoveFromCart(id: int)
      modifies this`cart
      ensures cart == CartAfterRemove(old(cart), id)
      ensures old(ValidCart(cart)) ==> ValidCart(cart)
    {
      if ValidCart(cart) {
        RemoveEffect(cart, id);
      }
      cart := CartAfterRemove(cart, id);
    }

    method UpdateQuantity(id: int, delta: int)
      modifies this`cart
      ensures cart == CartAfterUpdate(old(cart), id, delta)
      ensures old(ValidCart(cart)) ==> ValidCart(cart)
    {
      if ValidCart(cart) {
        UpdateEffect(cart, id, delta);
      }
      cart := CartAfterUpdate(cart, id, delta);
    }

    method ClearCart()
      modifies this`cart
      ensures cart == [] && ValidCart(cart)
    {
      cart := [];
    }

    function Total(): int
      reads this
    {
      CartTotal(cart)
    }

    function Count(): int
      reads this
    {
      CartCount(cart)
    }

    method SetSearchQuery(query: string)
      modifies this`filters
      ensures filters == old(filters).(searchQuery := query)
    {
      filters := filters.(searchQuery := query);
    }

    method SetCategory(category: string)
      modifies this`filters
      ensures filters == old(filters).(category := category)
    {
      filters := filters.(category := category);
    }

    method SetPriceRange(min: int, max: int)
      modifies this`filters
      ensures filters == old(filters).(minPrice := min, maxPrice := max)
    {
      filters := filters.(minPrice := min, maxPrice := max);
    }

    method SetSortOption(option: string)
      modifies this`filters
      ensures filters == old(filters).(sortOption := option)
    {
      filters := filters.(sortOption := option);
    }
  }
}
