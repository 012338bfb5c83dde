# Agroconnect order lifecycle, in Dafny

Agroconnect is a marketplace where suppliers (`fornecedor`) list products and
buyers (`comprador`) order them. This project models the part of it that has
behaviour of its own: an order's life from placement to the supplier's
decision, and the stock reconciliation that comes with accepting an order.

- **Placing an order** (`fazer_pedido`). The order form checks the quantity.
  It must be at least 1 and at most the product's current stock. A valid
  quantity creates a pending order. Its total is the price times the quantity,
  fixed at that moment.
- **Accepting** (`aceitar_pedido`). The supplier who owns the product can
  accept a pending order when the stock covers it. The order's quantity comes
  off the stock and the order becomes `aceito`. Otherwise nothing changes, and
  the result says whether stock was short or the order was already processed.
- **Declining** (`recusar_pedido`). The owning supplier moves a pending order
  to `recusado`. Stock is not touched.
- **Permission.** Both transitions look the order up among the acting
  supplier's products. Here the supplier is an explicit `actor` argument. An
  order of another supplier's product gives `NotFound`, and nothing changes.
- **Small helpers.** These are the status enumeration and its stored strings,
  the `status_color` and `get_item` template filters, the star rendering of a
  rating score with its 1..5 range, the one-rating-per-order-and-rater
  constraint, and the idempotent `mark_as_read` of a message.

Prices and totals are integer cents. The source stores them as decimals with
two places, so `preco * quantidade` is exact and needs no rounding.

Modules follow the source files:

- `Wrappers` holds `Option` and `Result`.
- `Models` is core/models.py.
- `Forms` is core/forms.py.
- `Views` is core/views.py.
- `PedidoTags` is core/templatetags/pedido_tags.py.

Products, orders and messages are classes, because the source updates their
fields in place. The accept and decline methods are each proved against a
value-level function (`AcceptEffect`, `DeclineEffect`). Lemmas about those
functions state the lifecycle's properties. Field-level `modifies` frames
(`order`status`, `order.product`stock`) show that nothing else changes.

core/views.py defines `recusar_pedido` twice. The second definition
(line 349) is the one in effect. The first (line 215) has the same branches
and differs only in its message and redirect, which are not modelled.

## Model

| member | source | states |
|---|---|---|
| `Models.Parse` | core/models.py:57-62 | A stored string reads back as a status exactly when it is one of the four choices, and then it is that status's own string |
| `Models.CodeRoundTrip` | core/models.py:57-62 | Every status is stored as one of the four choices and reads back as itself |
| `Models.CodeInjective` | core/models.py:57-62 | Two statuses share a stored string only if they are the same status |
| `Models.Order.constructor` | core/models.py:73-76 | A new order is `pendente` (the field default) and carries the given product, buyer, quantity and total |
| `Models.Message.constructor` | core/models.py:107 | A new message is unread |
| `Models.Message.MarkAsRead` | core/models.py:114-117 | Afterwards the message is read. An unread message is written once; on an already-read message nothing changes, so a second call has no effect |
| `Models.ValidScoresAreChoices` | core/models.py:130-158 | The 1..5 validators admit exactly the scores that have a choice label |
| `Models.Repeat` | core/models.py:168 | String repetition gives `n` copies of the character, and the empty string when `n <= 0` |
| `Models.Stars` | core/models.py:167-168 | For a score in 1..5, `nota_estrelas` has length 5: `score` filled stars, then `5 - score` empty ones |
| `Models.StarsMatchChoiceLabel` | core/models.py:130-168 | For a score in 1..5, `nota_estrelas` equals the display label of that score's choice |
| `Models.SaveRating` | core/models.py:126-159 | A rating is stored (appended) exactly when its score is in 1..5, its comment has at most 500 characters and the same rater has not rated the same order. A bad score gives `ScoreOutOfRange`; a valid score with a comment over 500 characters gives `CommentTooLong`; a valid rating of an order the rater has already rated gives `AlreadyRated` |
| `Models.SaveRatingKeepsUnique` | core/models.py:128 | Storing a rating keeps at most one rating per (order, rater) pair |
| `Forms.CleanQuantity` | core/forms.py:63-84 | A quantity is accepted exactly when it is at least 1 and, when the form has a product, at most that product's stock. An accepted quantity is returned unchanged. Below 1 gives `BelowMinimum`; over the stock gives `InsufficientStock` with the stock available. Without a product only the lower bound applies |
| `PedidoTags.StatusColor` | core/templatetags/pedido_tags.py:6-13 | Every string gets one of five colours. A listed status gets its colour from the table. `secondary` goes to exactly the strings the table does not list |
| `PedidoTags.StatusColorOfStatus` | core/templatetags/pedido_tags.py:7-13 | `pendente` is warning, `aceito` success, `recusado` danger. `entregue` is not in the table, so it gets `secondary` |
| `PedidoTags.GetItem` | core/templatetags/pedido_tags.py:16-17 | The stored value when the key is present, 0 when it is absent |
| `Views.AcceptEffect` | core/views.py:189-212 | Classifies an accept into four outcomes. `NotFound` iff the actor does not own the product. `AlreadyProcessed` iff the order is not pending. `InsufficientStock` iff stock < quantity. `Done` otherwise. Only `Done` changes state: status to `aceito` and stock down by exactly the quantity. Non-negative stock stays non-negative |
| `Views.AcceptOrder` | core/views.py:189-212 | The order's new status, the product's new stock and the returned outcome are those of `AcceptEffect` on the old state. No other field of the order or product changes |
| `Views.DeclineEffect` | core/views.py:349-363 | `NotFound` iff the actor does not own the product. `Done` iff the order is pending, and its status becomes `recusado`. `AlreadyProcessed` otherwise. On every failure the status is unchanged |
| `Views.DeclineOrder` | core/views.py:349-363 | The order's new status and the outcome are those of `DeclineEffect`. The product's stock is unchanged, and only the order's status may change |
| `Views.FirstDecisionIsFinal` | core/views.py:196-210 | Once a pending order is accepted, declining it is refused as already processed, and the reverse holds too. Stock and status stay as the first decision left them |
| `Views.PlaceOrder` | core/views.py:228-240 | The order is created exactly when the form accepts the quantity against the product's current stock; otherwise the form's error is returned. A new order is fresh and pending, has the given product, buyer and quantity, and its total is price times quantity. The product is not modified |
| `Views.AcceptAllKeepsStockNonNegative` | core/views.py:196-205 | Over any run of accept attempts on orders of one product, stock that starts non-negative stays non-negative |
| `Views.AcceptAllConservesStock` | core/views.py:196-205 | Over any run of accept attempts, the final stock plus the quantities of the accepted orders equals the starting stock |
| `Views.AcceptAllNeverOversells` | core/views.py:196-208 | Over any run of accept attempts from non-negative stock, the accepted quantities add up to at most the starting stock |

## Left out

- HTTP handling is not modelled: requests, `render`/`redirect`, flash messages, `login_required`, and the session lookup of the current profile. The profile is the explicit `actor` argument.
- ORM lookups and `.save()` persistence are not modelled. Orders and products are passed in as objects. `Message.saves` is a ghost counter of writes with no field behind it in the source; it only shows when `mark_as_read` saves.
- Looking up a missing order or product id (a 404 in the source) is not modelled; the objects are given. An order of another supplier's product is modelled, as `NotFound`.
- Views.AcceptOrder: the source saves the product and the order in two separate writes (core/views.py:201, 205), with no transaction. The model applies both as one sequential step, so it does not capture races between concurrent accepts or a crash between the two writes.
- Views.PlaceOrder: the 10-digit bound on `valor_total` (core/models.py:74) is not enforced. What happens when a total overflows it depends on the database backend.
- Non-integer or missing quantity input is not modelled. The integer form field rejects it before `clean_quantidade` runs, and the model starts from an integer.
- Models.SaveRating: the form's whitespace stripping of the comment is not modelled.
- Models.SaveRating: the source's form reports a bad score and a too-long comment together. The model reports only `ScoreOutOfRange` when the score is bad.
- Models.SaveRating: the form does not check for a repeat rating, because the order and the rater are not form fields. A second rating fails only when it is saved (core/views.py:297), as a database integrity error that nothing catches. The model reports it as a plain `AlreadyRated`.
- Models.SaveRating: the model does not check that the rater placed the order. The view looks the order up among the rater's own orders (core/views.py:288). Like the source, the model accepts a rating whatever the order's status.
- Product fields other than owner, price and stock (name, description, category, creation date and `estoque_minimo`) play no part in the lifecycle and are omitted.
- The status field is a string column in the source. The model uses the four-choice enumeration; `Parse` covers reading a stored string back.
- Complete and cancel transitions are not modelled: core/urls.py routes to a `concluir_pedido` that core/views.py does not define, so there is no behaviour to model.
- Dashboards, reports, product search and the order listings are not modelled; they are ORM queries with no logic of their own.
- Messaging views and `get_conversations` are not modelled, beyond the read flag.
- The supplier rating average is not modelled: it is a floating-point database aggregate.
- Sign-up, profile and product CRUD forms and views, form widget attributes, core/admin.py and core/urls.py are not part of this model.
