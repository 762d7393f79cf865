/** The browser's local storage for one origin, as used by the cart and the
    authentication scripts.

    Every key the scripts touch is one field of a Store; `None` means that the
    key is absent. A present key holds the decoded shape that the scripts write
    into it, so the JSON encoding done by `JSON.stringify` and undone by
    `JSON.parse` is the identity in this model. */
module LocalStorage {

  datatype Option<+T> = None | Some(value: T)

  /** One cart line item, stored as {nome, preco, quantidade}.
      The unit price is kept in cents. */
  datatype Item = Item(name: string, price: int, quantity: int)

  /** One user record, stored as {password, name} under the user's email. */
  datatype User = User(password: string, name: string)

  class Store {
    /** Key 'carrinhoDePizzasVitorPaes': the cart, an array of line items. */
    var cart: Option<seq<Item>>
    /** Key 'vitorPaesUsers': the user directory, email to record. */
    var users: Option<map<string, User>>
    /** Key 'isLoggedInVitorPaes': the session flag, a plain string. */
    var loggedFlag: Option<string>
    /** Key 'loggedInUsername': the first name of the logged-in user. */
    var username: Option<string>

    /** The storage of an origin that has never run the scripts. */
    constructor ()
      ensures cart == None && users == None
      ensures loggedFlag == None && username == None
    {
      cart := None;
      users := None;
      loggedFlag := None;
      username := None;
    }
  }
}
