/** `create_appellant_with_user` (cases/services.py): an appellant and the
    customer account that lets them follow their case. */
module CaseServices {
  import opened Wrappers
  import opened Text
  import opened UserModels
  import opened CaseModels

  /** The password the account is created with: a supplied non-empty
      password verbatim, otherwise the generated one. */
  function ChosenPassword(data: Attrs, generated: string): (pw: string)
    ensures "password" in data && data["password"].Text? && data["password"].s != "" ==> pw == data["password"].s
    ensures !("password" in data && data["password"].Text? && data["password"].s != "") ==> pw == generated
  {
    if "password" in data && data["password"].Text? && data["password"].s != "" then data["password"].s else generated
  }

  /** `appellant_data.get("name", "")`. */
  function FirstName(data: Attrs): string
    requires "name" in data ==> data["name"].Text?
  {
    if "name" in data then data["name"].s else ""
  }

  /** The keyword arguments of the `create_user` call: only the first name. */
  function AccountExtras(data: Attrs): (extra: ExtraFields)
    requires "name" in data ==> data["name"].Text?
    ensures extra.firstName == Some(FirstName(data)) && extra.isSuperuser.None?
  {
    NoExtras.(firstName := Some(FirstName(data)))
  }

  /** The password the service returns is never empty: either the caller's
      own non-empty one or a generated one of ten letters and digits. */
  lemma ChosenPasswordUsable(data: Attrs, generated: string)
    requires |generated| == 10 && AllAlphanumeric(generated)
    ensures ChosenPassword(data, generated) != ""
    ensures ChosenPassword(data, generated) != generated ==>
              data["password"] == Text(ChosenPassword(data, generated))
  {
  }

  /** The account is always a customer, whatever the appellant data holds. */
  lemma AccountIsCustomer(email: string, data: Attrs, password: string)
    requires "name" in data ==> data["name"].Text?
    ensures NewUser(email, Some(password), StoredRole(Some(Customer), AccountExtras(data)), AccountExtras(data)).role == Customer
    ensures NewUser(email, Some(password), StoredRole(Some(Customer), AccountExtras(data)), AccountExtras(data)).firstName == FirstName(data)
  {
  }

  /** `create_appellant_with_user`. `generated` stands for the ten random
      letters and digits drawn at line 11; it is used only when no non-empty
      password was supplied. On success the result is the new appellant and
      the password its account was created with. */
  method CreateAppellantWithUser(users: UserStore, cases: CaseStore, data: Attrs, generated: string)
    returns (r: Result<(AppellantId, string), Error>)
    requires users.Valid() && cases.Valid()
    requires |generated| == 10 && AllAlphanumeric(generated)
    requires "password" in data ==> data["password"].Text? || data["password"].Null?
    requires "email" in data ==> data["email"].Text?
    requires "name" in data ==> data["name"].Text?
    modifies users, cases`appellants, cases`nextAppellant
    ensures users.Valid() && cases.Valid()
    ensures "email" !in data ==> r == Err(MissingKey("email"))
    ensures "email" in data && data["email"].s == "" ==> r == Err(EmailRequired)
    ensures "email" in data ==>
              (r.Ok? <==> data["email"].s != "" && !EmailTaken(old(users.users), users.normalize(data["email"].s)))
    ensures r.Err? ==> users.users == old(users.users) && cases.appellants == old(cases.appellants)
    ensures users.tokens == old(users.tokens)
    ensures r.Ok? ==>
              var (appellant, password) := r.value;
              && password == ChosenPassword(data, generated)
              && appellant !in old(cases.appellants) && appellant in cases.appellants
              && "email" in data
              && cases.appellants[appellant].user.Some?
              && var account := cases.appellants[appellant].user.value;
                 && account !in old(users.users)
                 && users.users == old(users.users)[account := NewUser(users.normalize(data["email"].s), Some(password),
                                                                        Customer, AccountExtras(data))]
                 && cases.appellants == old(cases.appellants)[appellant := Appellant(data - {"password"}, Some(account))]
  {
    var attrs := data - {"password"};
    var secret := ChosenPassword(data, generated);
    if "email" !in attrs {
      return Err(MissingKey("email"));
    }
    var created := users.CreateUser(attrs["email"].s, Some(secret), Some(Customer), AccountExtras(attrs));
    if created.Err? {
      return Err(created.error);
    }
    var appellant := cases.CreateAppellant(attrs, Some(created.value));
    r := Ok((appellant, secret));
  }
}
