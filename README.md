# Shopping-cart state manager, modelled in Dafny

This project models the cart hook of a storefront front end (`src/hooks/useCart.tsx`).
The cart is an ordered list of `Product` lines (`src/types.ts`). Lines are keyed by
product `id`, and each line carries an integer `amount`. Three operations change the
stored cart:

- `addProduct` adds one unit of a product. A product already in the cart goes up by
  one while its amount is below the stock level. A product not in the cart is
  appended with amount 1.
- `removeProduct` splices out the first line with the given id.
- `updateProductAmount` overwrites a line's amount when it does not exceed the stock.

The model is a class, `Cart.CartStore`, with two fields. `saved` says whether a cart
is stored at all, and `items` is the stored cart. The three operations are methods
that change those fields and return an `Outcome`:

- `Done`: the cart changed.
- `Failed(e)`: the user was shown an error and the cart was left as it was.
- `NoStoredCart`: no cart was stored, so the operation did nothing and reported
  nothing.

The source keeps "no stored cart" and "a stored empty cart" apart. Removing or
updating does nothing in the first case and reports an error in the second. The
model keeps that difference.

Two values that the source fetches from the stock service become method
parameters: the stock level of a product (an integer) and the catalogue record of a
new product (`Types.ProductData`). `Array.prototype.findIndex` is modelled as the
function `CartSeq.FindIndex`. `splice(i, 1)` is modelled as `CartSeq.Splice`. The
in-place amount change is stated by the predicate `CartSeq.AmountSetAt`. The lemmas
in `CartSeq` prove that each operation keeps product ids pairwise distinct, so every
id stays on at most one line.

Behaviour of the code a caller might not expect:

- `updateProductAmount` checks that the product is in the cart before it checks the
  stock (useCart.tsx:178-183). A product that is absent therefore reports
  `UpdateFailed` even when the amount is above the stock.
- A product that is not in the cart is added without any stock check. It is added
  even when the stock is 0.
- `updateProductAmount` accepts an amount of zero or below and stores it.
- When no cart is stored, `removeProduct` and `updateProductAmount` do nothing and
  show no error.
- The new line is the catalogue record with `amount: 1`, so its id is whatever the
  catalogue returned. When a new line is appended, `AddProduct` promises distinct
  ids afterwards only when that id is the requested one.

`Cart.StockLimitScenario` is a client of the class. It shows what a caller can
derive from the method contracts: five adds against a stock of five, a refused
sixth add, a refused and then an accepted amount change, and two removals.

## Model

| member | source | states |
|---|---|---|
| CartSeq.FindIndex | src/hooks/useCart.tsx:48-53 | the result is -1 exactly when no line has the id; otherwise the line at the result has the id and no earlier line does |
| CartSeq.Splice | src/hooks/useCart.tsx:135-138 | one line shorter; lines before `i` unchanged, lines after `i` shifted down by one in order; the multiset of lines loses exactly the line at `i` |
| CartSeq.FindIndexUnique | src/hooks/useCart.tsx:128-133 | with distinct ids, the lookup of a line's id returns that line's index |
| CartSeq.AmountSetKeepsLookup | src/hooks/useCart.tsx:179-187 | rewriting one line's amount leaves every later lookup's index unchanged and keeps ids distinct |
| CartSeq.SpliceFirstMatch | src/hooks/useCart.tsx:128-144 | removing the first line with an id keeps the presence of every other id; with distinct ids, the result has distinct ids and no longer holds the removed id |
| CartSeq.AppendFresh | src/hooks/useCart.tsx:71-80 | appending a line whose id is absent keeps ids distinct, and the lookup of that id finds the new last line |
| Cart.CartStore.constructor | src/hooks/useCart.tsx:25-31 | the session's cart is the stored one; an absent stored cart holds no products |
| Cart.CartStore.AddProduct | src/hooks/useCart.tsx:33-115 | present and below stock: only that line's amount goes up by 1, staying within stock; present at or above stock: `OutOfStock`, cart unchanged; absent: the catalogue record with amount 1 is appended, and an absent stored cart becomes that single line; the cart is stored afterwards; distinct ids are kept when the product was in the cart, or when the catalogue record carries the requested id |
| Cart.CartStore.RemoveProduct | src/hooks/useCart.tsx:117-153 | no stored cart: nothing happens; id absent: `RemoveFailed`, cart unchanged; id present: exactly the first matching line is spliced out and the others keep their order; with distinct ids the id is gone and every other id is kept |
| Cart.CartStore.UpdateProductAmount | src/hooks/useCart.tsx:155-206 | no stored cart: nothing happens; id absent (checked first): `UpdateFailed`; amount above stock: `OutOfStock`, cart unchanged; otherwise only that line's amount becomes exactly `amount`; distinct ids are kept |

## Left out

- The React context, `useState`/`setCart`, the provider and `useCart` (useCart.tsx:22-31, 208-220) are UI plumbing. The stored cart is the class's fields instead.
- Reading and writing browser local storage, and the JSON encoding of the cart, are I/O and library serialisation. A malformed stored blob, which makes `JSON.parse` throw, is not modelled.
- The calls to the stock and product endpoints are network I/O. Their results are parameters. A failed request leaves the cart unchanged and shows no error, because the rejected promise is never caught. The model does not represent that failure.
- The `catch` branches that show "Erro na adição do produto" and the other generic messages (useCart.tsx:112-114, 150-152, 203-205) only catch synchronous exceptions from the I/O above. They are not modelled.
- The asynchronous structure and the race it allows are not modelled. The race is between reading the stored cart and applying the change once the stock request resolves. Each operation is one atomic transition here.
- The toast texts are not modelled. Each toast becomes a `CartError` value.
- `price` is a JavaScript number. It is carried as a `real` and never computed with. `ProductFormatted` (types.ts:10-13) is display formatting.
- Amounts are unbounded integers. JavaScript numbers lose precision above 2^53, and the model does not capture that.
