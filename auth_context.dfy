/**
 * The account registry and the signed-in account. `registeredUsers` in `localStorage` is the
 * `registry` field (a missing key reads as the empty list) together with `registryCorrupt`;
 * `currentUser` in `localStorage` is the `savedUser` field, and the React state `user` is the
 * `user` field.
 */
module AuthContext {
  import opened Wrappers
  import opened Storage
  import opened Seqs
  import opened Strings
  import opened Promises

  /** The fields that differ between individual and organization accounts. */
  datatype Profile =
    | UserProfile(fullName: string, handle: string, avatarUrl: string, bio: string,
                  defaultFundingSource: string, totalDonatedUsd: real)
    | OrganizationProfile(name: string, tagline: string, description: string, category: string,
                          city: string, country: string, logoUrl: string, website: string,
                          ein: Option<string>, totalReceivedUsd: real, supportersCount: int,
                          isVerified: bool, tags: seq<string>)

  /**
   * A registry entry, or the signed-in account when `password` is `None`. A missing
   * `walletBalanceUsd` is `None`.
   */
  datatype Account = Account(id: string, email: string, password: Option<string>, joinedAt: int,
                             walletBalanceUsd: Option<real>, profile: Profile)
  {
    predicate IsUser() {
      profile.UserProfile?
    }

    /** `u.handle`: organization entries have none. */
    function Handle(): Option<string> {
      if profile.UserProfile? then Some(profile.handle) else None
    }

    /** `walletBalanceUsd || 0`. */
    function Balance(): real {
      walletBalanceUsd.GetOr(0.0)
    }

    /** The account with its `password` key removed. */
    function WithoutPassword(): Account {
      this.(password := None)
    }
  }

  /** `user.defaultFundingSource || 'wallet'`: the funding source the donation handlers record. */
  function FundingSource(user: Account): (r: string)
    ensures r != ""
    ensures user.profile.UserProfile? && user.profile.defaultFundingSource != "" ==> r == user.profile.defaultFundingSource
  {
    if user.profile.UserProfile? && user.profile.defaultFundingSource != "" then user.profile.defaultFundingSource
    else "wallet"
  }

  /** What the registration form submits; absent optional fields are `None`. */
  datatype RegisterData = RegisterData(
    isUser: bool,
    fullName: Option<string>, handle: Option<string>, bio: Option<string>,
    name: Option<string>, tagline: Option<string>, description: Option<string>, category: Option<string>,
    city: Option<string>, country: Option<string>, website: Option<string>, ein: Option<string>,
    email: string, password: string)

  /** `u => u.email === email && u.password === password`. */
  function Matches(email: string, password: string): Account -> bool {
    (u: Account) => u.email == email && u.password == Some(password)
  }

  function HasId(id: string): Account -> bool {
    (u: Account) => u.id == id
  }

  predicate EmailTaken(registry: seq<Account>, email: string) {
    exists i :: 0 <= i < |registry| && registry[i].email == email
  }

  predicate HandleTaken(registry: seq<Account>, handle: string) {
    exists i :: 0 <= i < |registry| && registry[i].Handle() == Some(handle)
  }

  /** `userData.handle` is truthy: present and not empty. */
  predicate HasHandle(data: RegisterData) {
    data.handle.Some? && data.handle.value != ""
  }

  /** Why `register` refuses: the email is registered, or a user's non-empty handle is. */
  predicate RegisterRefused(registry: seq<Account>, data: RegisterData) {
    EmailTaken(registry, data.email) || (data.isUser && HasHandle(data) && HandleTaken(registry, data.handle.value))
  }

  /** The account `register` creates, before the password is attached; `now` is `Date.now()`. */
  function NewAccount(data: RegisterData, now: nat): (a: Account)
    ensures a.IsUser() == data.isUser && a.email == data.email && a.joinedAt == now
    ensures a.password.None? && a.walletBalanceUsd == Some(0.0)
    ensures a.id == (if data.isUser then "user_" else "org_") + NatToDecimal(now)
  {
    var profile :=
      if data.isUser then
        UserProfile(data.fullName.GetOr(""), data.handle.GetOr(""), "", data.bio.GetOr(""), "", 0.0)
      else
        OrganizationProfile(data.name.GetOr(""), data.tagline.GetOr(""), data.description.GetOr(""),
                            data.category.GetOr(""), data.city.GetOr(""), data.country.GetOr(""), "",
                            data.website.GetOr(""), data.ein, 0.0, 0, false, []);
    Account((if data.isUser then "user_" else "org_") + NatToDecimal(now), data.email, None, now, Some(0.0), profile)
  }

  /** The registry with entry `i`'s balance set to `balance`, every other entry and field kept. */
  function SetBalance(registry: seq<Account>, i: nat, balance: real): (r: seq<Account>)
    requires i < |registry|
    ensures |r| == |registry|
    ensures r[i] == registry[i].(walletBalanceUsd := Some(balance))
    ensures forall j :: 0 <= j < |r| && j != i ==> r[j] == registry[j]
  {
    registry[i := registry[i].(walletBalanceUsd := Some(balance))]
  }

  class AuthState {
    /** What `registeredUsers` parses to; a missing key reads as the empty list. */
    var registry: seq<Account>
    /**
     * Whether `registeredUsers` holds text that `JSON.parse` rejects. Every write of the key
     * follows a successful parse, so the provider never repairs it.
     */
    const registryCorrupt: bool
    /** The message of the `SyntaxError` that `JSON.parse` throws on that text; the engine words it. */
    const parseError: string
    var user: Option<Account>
    var savedUser: Option<Account>
    var isLoading: bool

    /**
     * The provider after its mount effect, given the two keys: a `currentUser` that does not
     * parse is removed; `registeredUsers` is only read later, by the four operations.
     */
    constructor (registered: Stored<seq<Account>>, stored: Stored<Account>, parseError: string)
      ensures registryCorrupt == registered.Corrupt? && this.parseError == parseError
      ensures registry == if registered.Present? then registered.value else []
      ensures !isLoading
      ensures stored.Present? ==> user == Some(stored.value) && savedUser == user
      ensures !stored.Present? ==> user.None? && savedUser.None?
      ensures IsAuthenticated() <==> stored.Present?
    {
      registry := if registered.Present? then registered.value else [];
      registryCorrupt := registered.Corrupt?;
      this.parseError := parseError;
      match stored {
        case Present(a) =>
          user := Some(a);
          savedUser := Some(a);
        case _ =>
          user := None;
          savedUser := None;
      }
      isLoading := false;
    }

    /** `isAuthenticated: !!user`. */
    predicate IsAuthenticated()
      reads this
    {
      user.Some?
    }

    /** How a read of `registeredUsers` that does not parse ends the call: `JSON.parse` throws. */
    function ParseFailure(): Settled
      reads this
    {
      Rejected(ErrorValue(parseError))
    }

    /** `login(email, password)`: signs in the first entry with that email and password. */
    method Login(email: string, password: string) returns (outcome: Settled)
      modifies this
      ensures registryCorrupt ==> outcome == ParseFailure()
      ensures !registryCorrupt ==> outcome.Fulfilled?
      ensures outcome == Fulfilled(true) <==>
                !registryCorrupt && exists i :: 0 <= i < |registry| && registry[i].email == email && registry[i].password == Some(password)
      ensures registry == old(registry) && isLoading == old(isLoading)
      ensures outcome == Fulfilled(true) ==>
                var i := FindIndex(registry, Matches(email, password));
                0 <= i && user == Some(registry[i].WithoutPassword()) && savedUser == user && IsAuthenticated()
                && forall j :: 0 <= j < i ==> !(registry[j].email == email && registry[j].password == Some(password))
      ensures outcome != Fulfilled(true) ==> user == old(user) && savedUser == old(savedUser)
    {
      if registryCorrupt {
        return ParseFailure();
      }
      var foundUser := Find(registry, Matches(email, password));
      if foundUser.Some? {
        ghost var i := FindIndex(registry, Matches(email, password));
        assert registry[i].email == email && registry[i].password == Some(password);
        var userWithoutPassword := foundUser.value.WithoutPassword();
        user := Some(userWithoutPassword);
        savedUser := Some(userWithoutPassword);
        return Fulfilled(true);
      }
      return Fulfilled(false);
    }

    /** `register(userData)`, with `now` standing for `Date.now()` and `new Date()`. */
    method Register(data: RegisterData, now: nat) returns (outcome: Settled)
      modifies this
      ensures registryCorrupt ==> outcome == ParseFailure()
      ensures !registryCorrupt ==> outcome.Fulfilled?
      ensures outcome == Fulfilled(true) <==> !registryCorrupt && !RegisterRefused(old(registry), data)
      ensures outcome != Fulfilled(true) ==> registry == old(registry) && user == old(user) && savedUser == old(savedUser)
      ensures outcome == Fulfilled(true) ==> registry == old(registry) + [NewAccount(data, now).(password := Some(data.password))]
      ensures outcome == Fulfilled(true) ==> user == Some(NewAccount(data, now)) && savedUser == user && IsAuthenticated()
      ensures isLoading == old(isLoading)
    {
      if registryCorrupt {
        return ParseFailure();
      }
      var emailExists := FindIndex(registry, (u: Account) => u.email == data.email) != -1;
      if emailExists {
        return Fulfilled(false);
      }
      if data.isUser && HasHandle(data) {
        var handleExists := FindIndex(registry, (u: Account) => u.Handle() == data.handle) != -1;
        if handleExists {
          return Fulfilled(false);
        }
      }
      var newAccount := NewAccount(data, now);
      var accountWithPassword := newAccount.(password := Some(data.password));
      registry := registry + [accountWithPassword];
      var accountWithoutPassword := accountWithPassword.WithoutPassword();
      user := Some(accountWithoutPassword);
      savedUser := Some(accountWithoutPassword);
      return Fulfilled(true);
    }

    /** `logout()`. */
    method Logout()
      modifies this
      ensures user.None? && savedUser.None? && !IsAuthenticated()
      ensures registry == old(registry) && isLoading == old(isLoading)
    {
      user := None;
      savedUser := None;
    }

    /** `addFunds(amount)`: credits the signed-in account's registry entry. */
    method AddFunds(amount: real) returns (outcome: Settled)
      modifies this
      ensures old(user).None? || amount <= 0.0 ==> outcome == Fulfilled(false)
      ensures old(user).Some? && amount > 0.0 ==>
                (registryCorrupt ==> outcome == ParseFailure()) && (!registryCorrupt ==> outcome.Fulfilled?)
      ensures outcome == Fulfilled(true) <==>
                old(user).Some? && amount > 0.0 && !registryCorrupt && FindIndex(old(registry), HasId(old(user).value.id)) != -1
      ensures outcome != Fulfilled(true) ==> registry == old(registry) && user == old(user) && savedUser == old(savedUser)
      ensures outcome == Fulfilled(true) ==>
                var i := FindIndex(old(registry), HasId(old(user).value.id));
                var balance := old(registry)[i].Balance() + amount;
                registry == SetBalance(old(registry), i, balance)
                && user == Some(old(user).value.(walletBalanceUsd := Some(balance))) && savedUser == user
      ensures isLoading == old(isLoading)
    {
      if user.None? || amount <= 0.0 {
        return Fulfilled(false);
      }
      if registryCorrupt {
        return ParseFailure();
      }
      var userIndex := FindIndex(registry, HasId(user.value.id));
      if userIndex == -1 {
        return Fulfilled(false);
      }
      var currentBalance := registry[userIndex].Balance();
      var newBalance := currentBalance + amount;
      registry := SetBalance(registry, userIndex, newBalance);
      var updatedUser := user.value.(walletBalanceUsd := Some(newBalance));
      user := Some(updatedUser);
      savedUser := Some(updatedUser);
      return Fulfilled(true);
    }

    /** `deductFunds(amount)`: debits the signed-in account's registry entry when it holds enough. */
    method DeductFunds(amount: real) returns (outcome: Settled)
      modifies this
      ensures old(user).None? || amount <= 0.0 ==> outcome == Fulfilled(false)
      ensures old(user).Some? && amount > 0.0 ==>
                (registryCorrupt ==> outcome == ParseFailure()) && (!registryCorrupt ==> outcome.Fulfilled?)
      ensures outcome == Fulfilled(true) <==>
                old(user).Some? && amount > 0.0 && !registryCorrupt && FindIndex(old(registry), HasId(old(user).value.id)) != -1
                && old(registry)[FindIndex(old(registry), HasId(old(user).value.id))].Balance() >= amount
      ensures outcome != Fulfilled(true) ==> registry == old(registry) && user == old(user) && savedUser == old(savedUser)
      ensures outcome == Fulfilled(true) ==>
                var i := FindIndex(old(registry), HasId(old(user).value.id));
                var balance := old(registry)[i].Balance() - amount;
                && balance >= 0.0
                && registry == SetBalance(old(registry), i, balance)
                && user == Some(old(user).value.(walletBalanceUsd := Some(balance))) && savedUser == user
      ensures isLoading == old(isLoading)
    {
      if user.None? || amount <= 0.0 {
        return Fulfilled(false);
      }
      if registryCorrupt {
        return ParseFailure();
      }
      var userIndex := FindIndex(registry, HasId(user.value.id));
      if userIndex == -1 {
        return Fulfilled(false);
      }
      var currentBalance := registry[userIndex].Balance();
      if currentBalance < amount {
        return Fulfilled(false);
      }
      var newBalance := currentBalance - amount;
      registry := SetBalance(registry, userIndex, newBalance);
      var updatedUser := user.value.(walletBalanceUsd := Some(newBalance));
      user := Some(updatedUser);
      savedUser := Some(updatedUser);
      return Fulfilled(true);
    }
  }

  /** A successful registration is followed by being able to sign in with the same email and password. */
  lemma RegisteredCanLogIn(registry: seq<Account>, data: RegisterData, now: nat)
    requires !RegisterRefused(registry, data)
    ensures var r := registry + [NewAccount(data, now).(password := Some(data.password))];
            FindIndex(r, Matches(data.email, data.password)) == |registry|
  {
    var r := registry + [NewAccount(data, now).(password := Some(data.password))];
    forall i | 0 <= i < |registry|
      ensures !Matches(data.email, data.password)(r[i])
    {
      assert r[i] == registry[i];
    }
    assert Matches(data.email, data.password)(r[|registry|]);
  }

  /** After a successful registration the email is taken, so registering it again is refused. */
  lemma RegisterTwiceIsRefused(registry: seq<Account>, data: RegisterData, now: nat, again: RegisterData)
    requires again.email == data.email
    ensures RegisterRefused(registry + [NewAccount(data, now).(password := Some(data.password))], again)
  {
    var r := registry + [NewAccount(data, now).(password := Some(data.password))];
    assert r[|registry|].email == data.email;
  }

  /** Crediting and then debiting the same amount restores a balance that was present. */
  lemma CreditThenDebit(registry: seq<Account>, i: nat, amount: real)
    requires i < |registry| && registry[i].walletBalanceUsd.Some?
    ensures var credited := SetBalance(registry, i, registry[i].Balance() + amount);
            SetBalance(credited, i, credited[i].Balance() - amount) == registry
  {
    var credited := SetBalance(registry, i, registry[i].Balance() + amount);
    var back := SetBalance(credited, i, credited[i].Balance() - amount);
    assert back[i] == registry[i];
  }
}
