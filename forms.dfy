/** The quantity rules of the order form (`PedidoForm`) in core/forms.py. */
module Forms {
  import opened Wrappers

  /** Why a quantity is refused: under the field's minimum, or over the product's stock. */
  datatype QuantityError = BelowMinimum | InsufficientStock(available: int)

  /** The field's `min_value`. */
  const MinQuantity: int := 1

  /**
   * Cleans the submitted quantity. `available` is the stock of the product the
   * form was built for, or `None` when it was built without one, in which case
   * only the lower bound applies. An accepted quantity is returned unchanged.
   */
  function CleanQuantity(quantity: int, available: Option<int>): (r: Result<int, QuantityError>)
    ensures r.Success? <==> MinQuantity <= quantity && (available.Some? ==> quantity <= available.value)
    ensures r.Success? ==> r.value == quantity
    ensures quantity < MinQuantity ==> r == Failure(BelowMinimum)
    ensures MinQuantity <= quantity && available.Some? && quantity > available.value ==>
              r == Failure(InsufficientStock(available.value))
  {
    if quantity < MinQuantity then Failure(BelowMinimum)
    else if available.Some? && quantity > available.value then Failure(InsufficientStock(available.value))
    else Success(quantity)
  }
}
