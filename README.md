# Pizzeria storefront: cart and mock authentication over local storage

This project models the two browser-side state machines of a small pizzeria storefront.

- **The cart manager** (`trabalho-html/script.js`) holds an ordered list of line items `{nome, preco, quantidade}` under one local-storage key.
  - Adding a pizza scans for an item of that name. It bumps that item's quantity in place, or appends a new line with quantity 1.
  - Removing is by position. An out-of-range position is a no-op.
  - The badge shows the sum of quantities.
  - The cart page shows each line's subtotal and the grand total.
  - "Clear" removes the key after confirmation.
  - "Finalizar" refuses an empty cart. Otherwise it reports the number of units and removes the key.
- **The authentication manager** (`trabalho-html/auth.js`) keeps a directory from email to `{password, name}`.
  - When nothing is stored, the directory is seeded with one default user.
  - The session lives in two more keys: a flag that must hold exactly `"true"`, and the first name of the logged-in user.
  - Registration is insert-if-absent, behind a password-length check. Login compares the password exactly. Logout removes both session keys.

Local storage is modelled explicitly as `LocalStorage.Store`, a class with one field per key. Each field has type `Option`, and `None` means the key is absent. A present key holds the decoded value the scripts write, so `JSON.stringify`/`JSON.parse` is the identity. Every operation takes the store as a parameter. Its `modifies` frame names exactly the keys it may write, so "nothing else changes" is checked by the verifier. For example, a login cannot touch the user directory and a registration cannot touch the session.

Prices are integers (cents). Names, emails and passwords are `string`.

Files:
- `local_storage.dfy`: the store and the stored shapes `Item` and `User`.
- `cart.dfy`: module `Cart`.
- `auth.dfy`: module `Auth`.

Each mutating cart operation is a method proved against pure functions of the old store: `AddItem`, `RemoveAt` and `QuantitySum`. Lemmas about those functions give the invariants the cart keeps: unique names, quantities of at least 1, and the exact change in the badge count. `GrandTotal` is the reference definition for the render loop. Lemmas also give the exact change in the grand total on each add and remove.

## Model

| member | source | states |
|---|---|---|
| `Cart.GetCart` | trabalho-html/script.js:9-12 | An absent cart key reads as the empty cart; a present one reads as what was stored. |
| `Cart.SaveCart` | trabalho-html/script.js:17-19 | Saving overwrites the cart key, and the next read returns exactly the saved cart. |
| `Cart.QuantitySum` | trabalho-html/script.js:48 | The badge count: the left fold of quantities, also reported by "finalizar" (line 187). It is never negative when no quantity is. |
| `Cart.Subtotal` | trabalho-html/script.js:81 | A line's total, price × quantity. It is the unit price for quantity 1 and at least the unit price for a non-negative price and quantity of at least 1. |
| `Cart.GrandTotal` | trabalho-html/script.js:78-82 | The order total, subtotals summed front to back. It is never negative when no price or quantity is. |
| `Cart.QuantitySumAppend` | trabalho-html/script.js:48 | The badge count (left fold of quantities) is additive over concatenation of carts. |
| `Cart.QuantitySumSplit` | trabalho-html/script.js:48 | The badge count is the count before position i, plus item i's quantity, plus the count after it. |
| `Cart.CountAtLeastLength` | trabalho-html/script.js:48-55 | When every quantity is at least 1, the count is at least the number of lines, so it is 0 exactly when the cart is empty (the badge is hidden exactly then). |
| `Cart.GrandTotalAppend` | trabalho-html/script.js:78-82 | The grand total (sum of price × quantity) is additive over concatenation of carts. |
| `Cart.GrandTotalSplit` | trabalho-html/script.js:78-82 | The grand total is the total before position i, plus line i's subtotal, plus the total after it. |
| `Cart.NameIndex` | trabalho-html/script.js:26 | `find` by name returns the first position whose item has that name, or nothing exactly when no item has that name. |
| `Cart.FindByName` | trabalho-html/script.js:26 | The linear scan returns the same position as the reference `NameIndex`. |
| `Cart.AddItem` | trabalho-html/script.js:24-36 | The cart after an add has the same length or one more line. It has one more line exactly when `find` found no item with that name, and that line is then `{name, price, 1}` at the end. The lemmas below state what happens to the other lines. |
| `Cart.AddExistingIncrements` | trabalho-html/script.js:26-29 | Adding a name that is present raises the first matching item's quantity by exactly 1; the length and every other item are unchanged. |
| `Cart.AddExistingInValidCart` | trabalho-html/script.js:26-29 | In a cart with unique names, adding the name of any item i raises exactly item i by 1 and leaves all others unchanged. |
| `Cart.AddNewAppends` | trabalho-html/script.js:31-35 | Adding a name that is absent yields the old cart followed by `{name, price, 1}`, so all earlier items keep their positions and values. |
| `Cart.AddPreservesValid` | trabalho-html/script.js:24-38 | Adding keeps both invariants: no two items share a name, and every quantity is at least 1. |
| `Cart.AddRaisesCount` | trabalho-html/script.js:24-39 | Every add raises the badge count by exactly 1. |
| `Cart.SubtotalOfOneMore` | trabalho-html/script.js:29 | One more unit raises a line's subtotal by exactly its unit price. |
| `Cart.BumpRaisesTotal` | trabalho-html/script.js:28-29 | Bumping line i's quantity raises the grand total by that line's unit price. |
| `Cart.AppendRaisesTotal` | trabalho-html/script.js:31-35 | Pushing a line raises the grand total by that line's subtotal. |
| `Cart.AddExistingRaisesTotal` | trabalho-html/script.js:26-29 | Adding a name already in the cart raises the grand total by the unit price stored on the found line (not by the price passed in). |
| `Cart.AddNewRaisesTotal` | trabalho-html/script.js:31-35 | Adding a name not in the cart raises the grand total by the given price. |
| `Cart.AddToCart` | trabalho-html/script.js:24-40 | The stored cart becomes `AddItem` of the old cart. The count rises by 1, validity is preserved, and no other key is written. |
| `Cart.RemoveAt` | trabalho-html/script.js:127 | `splice(i, 1)` gives a cart one shorter, with items before i in place and items after i shifted down by one. |
| `Cart.RemovePreservesValid` | trabalho-html/script.js:125-128 | Removing a line keeps names unique and quantities at least 1. |
| `Cart.RemoveLowersCount` | trabalho-html/script.js:125-130 | Removing line i lowers the badge count by exactly that line's quantity. |
| `Cart.RemoveLowersTotal` | trabalho-html/script.js:125-128 | Removing line i lowers the grand total by exactly that line's subtotal. |
| `Cart.RemoveFromCart` | trabalho-html/script.js:122-132 | An index outside [0, length) leaves the stored cart key exactly as it was. An index inside stores the cart without that line, lowers the count by its quantity and keeps validity. |
| `Cart.RenderCart` | trabalho-html/script.js:62-102 | The empty message is shown exactly when the cart is empty. Otherwise there is one line per item, in order, with subtotal price × quantity and the item's index, and the loop's total equals `GrandTotal`. |
| `Cart.ClearCart` | trabalho-html/script.js:168-174 | When confirmed, the cart key is removed, the next read is empty and the count is 0. When not confirmed, nothing changes. |
| `Cart.Checkout` | trabalho-html/script.js:180-192 | An empty cart is refused and the key is left as it was. A non-empty cart reports its quantity sum and the key is removed. Either way the cart then reads as empty. |
| `Cart.ScenarioPizzaOrder` | trabalho-html/script.js:24-40 | Starting from empty storage, adding Margherita twice and Calabresa once renders lines [Margherita 30.00 × 2 = 60.00, Calabresa 35.00 × 1 = 35.00] with total 95.00. |
| `Auth.GetUsers` | trabalho-html/auth.js:11-18 | With no stored directory, the directory is exactly {"cliente@email.com": {"123", "Cliente Teste"}}. Otherwise it is the stored one. |
| `Auth.SaveUsers` | trabalho-html/auth.js:23-25 | Saving overwrites the directory key, and the next read returns exactly the saved directory. |
| `Auth.IsLoggedIn` | trabalho-html/auth.js:30-32 | Being logged in needs the flag key to be present. A present flag holding anything other than exactly "true" (for example "false" or "") means not logged in. |
| `Auth.FirstName` | trabalho-html/auth.js:65 | `name.split(' ')[0]` is a prefix of the name that contains no space and is followed by a space or by the end of the name. |
| `Auth.FirstNameOfOneWord` | trabalho-html/auth.js:65 | A name without spaces is its own first name. |
| `Auth.FirstNameBeforeSpace` | trabalho-html/auth.js:65 | If the first space of the name is at position k, the first name is `name[..k]`. |
| `Auth.GreetingName` | trabalho-html/auth.js:30-39 | A greeting exists exactly when `IsLoggedIn` holds. The greeting is never empty. It equals the stored username when that is non-empty, and it is "Cliente" when the username key is absent or holds "". |
| `Auth.Login` | trabalho-html/auth.js:58-73 | Succeeds iff the email is a key and its stored password equals the given one exactly. On success the flag becomes "true" and the username becomes the stored name's first word. On failure no key changes. The user directory is never written. |
| `Auth.Logout` | trabalho-html/auth.js:106-111 | Both session keys are removed whatever they held. Afterwards the user is not logged in and no greeting is shown. |
| `Auth.Register` | trabalho-html/auth.js:75-104 | An email that is already a key is refused and the directory is unchanged. A new email adds exactly `{password, name}` and keeps every earlier entry, including the seed when nothing was stored. Session keys are never written. |
| `Auth.SubmitRegistration` | trabalho-html/auth.js:133-146 | A password shorter than 3 characters is refused with the directory unchanged. Otherwise the outcome and the new directory are those of `Register`. |
| `Auth.ScenarioRegisterTwiceThenLogin` | trabalho-html/auth.js:75-91 | Registering ana@x.com succeeds. Registering it again as "Ana2" is refused and the record stays {"abc", "Ana"}. Logging in then succeeds and greets "Ana". |
| `Auth.ScenarioDefaultUserLogin` | trabalho-html/auth.js:13-17 | With empty storage, the seeded user logs in with password "123" and is greeted as "Cliente". |

## Left out

- DOM rendering: the `innerHTML` markup, `createElement`, the badge's `style.display`, the `auth-link-container` markup and the check for a missing page container. `RenderCart` returns the rendered content (lines, subtotals, indices, total) instead of markup.
- `alert`, `confirm` and `window.location.href` redirects are user interaction and navigation. `confirm` becomes the `confirmed` parameter of `ClearCart`.
- Event wiring in the `DOMContentLoaded` handlers is left out, apart from the logic those handlers run. That logic is modelled: the clear and finalize handlers, and the password-length check of the registration form.
- The disabled automatic login after registration (`loginAutomatico = false`) is dead code. `Register` never touches the session keys.
- Real `localStorage` and JSON encoding: the store holds typed values. Malformed stored JSON is not defended against by the source and is not modelled. Sharing one origin's storage across tabs (lost updates) is concurrency outside the program.
- Floating-point prices, `parseFloat`/`parseInt` of data attributes, and `toFixed(2)` currency formatting: prices are integer cents, so totals are exact.
- JavaScript object-key quirks of `users[email]` (inherited keys such as "constructor" or "__proto__") are not modelled. The directory is a plain finite map.
- `Auth.SubmitRegistration`: the length of a `string` counts Dafny characters. JavaScript's `length` counts UTF-16 code units, which differ for characters outside the Basic Multilingual Plane.
- The `document.title.includes('Acesso')` redirect is page plumbing.
