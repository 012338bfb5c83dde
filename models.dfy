/**
 * The records of core/models.py that the order lifecycle touches:
 * the order status enumeration, products and orders (mutable objects),
 * messages and their read flag, and ratings with their score range,
 * star rendering and the one-rating-per-order-and-rater constraint.
 */
module Models {
  import opened Wrappers

  /** Identifier of a user profile (`Perfil`): suppliers and buyers alike. */
  type ProfileId = nat

  // ---------------------------------------------------------------------------
  // Order status
  // ---------------------------------------------------------------------------

  /** The four choices of `Pedido.status`. */
  datatype Status = Pendente | Aceito | Recusado | Entregue

  /** The string stored in the database for each status. */
  function Code(s: Status): string
  {
    match s
    case Pendente => "pendente"
    case Aceito => "aceito"
    case Recusado => "recusado"
    case Entregue => "entregue"
  }

  /** The stored strings that are valid status choices. */
  const StatusChoices: seq<string> := ["pendente", "aceito", "recusado", "entregue"]

  /** Reads a stored string back as a status; anything outside the choices is rejected. */
  function Parse(code: string): (r: Option<Status>)
    ensures r.Some? <==> code in StatusChoices
    ensures r.Some? ==> Code(r.value) == code
  {
    if code == "pendente" then Some(Pendente)
    else if code == "aceito" then Some(Aceito)
    else if code == "recusado" then Some(Recusado)
    else if code == "entregue" then Some(Entregue)
    else None
  }

  /** Every status is stored as one of the choices, and reads back as itself. */
  lemma CodeRoundTrip(s: Status)
    ensures Code(s) in StatusChoices
    ensures Parse(Code(s)) == Some(s)
  {
  }

  /** Distinct statuses are stored as distinct strings. */
  lemma CodeInjective(s: Status, t: Status)
    ensures Code(s) == Code(t) <==> s == t
  {
  }

  // ---------------------------------------------------------------------------
  // Products and orders
  // ---------------------------------------------------------------------------

  /** A `Produto`: the supplier who owns it, its price in cents and its stock counter. */
  class Product {
    const owner: ProfileId
    var price: int
    var stock: int

    constructor (owner: ProfileId, price: int, stock: int)
      ensures this.owner == owner && this.price == price && this.stock == stock
    {
      this.owner := owner;
      this.price := price;
      this.stock := stock;
    }
  }

  /**
   * A `Pedido`: a buyer's request for `quantity` units of `product`,
   * with the total (in cents) fixed when the order is placed.
   */
  class Order {
    const product: Product
    const buyer: ProfileId
    const quantity: int
    const total: int
    var status: Status

    /** A new order starts out pending, the field's default. */
    constructor (product: Product, buyer: ProfileId, quantity: int, total: int)
      ensures this.product == product && this.buyer == buyer
      ensures this.quantity == quantity && this.total == total
      ensures status == Pendente
    {
      this.product := product;
      this.buyer := buyer;
      this.quantity := quantity;
      this.total := total;
      status := Pendente;
    }
  }

  // ---------------------------------------------------------------------------
  // Messages
  // ---------------------------------------------------------------------------

  /** A `Mensagem` as far as its read flag goes. */
  class Message {
    var read: bool
    /** Specification-only: how many times the row has been written back. */
    ghost var saves: nat

    constructor ()
      ensures !read && saves == 0
    {
      read := false;
      saves := 0;
    }

    /** Marks the message read, writing the row only when the flag actually changes. */
    method MarkAsRead()
      modifies this
      ensures read
      ensures old(read) ==> saves == old(saves)
      ensures !old(read) ==> saves == old(saves) + 1
    {
      if !read {
        read := true;
        saves := saves + 1;
      }
    }
  }

  // ---------------------------------------------------------------------------
  // Ratings
  // ---------------------------------------------------------------------------

  /** An `Avaliacao`: a buyer's score (and comment) for the supplier of one order. */
  datatype Rating = Rating(order: nat, rater: ProfileId, supplier: ProfileId, score: int, comment: string)

  const FilledStar: char := '\U{2605}'
  const EmptyStar: char := '\U{2606}'

  /** The labels of the score choices: `n` filled stars then `5 - n` empty ones. */
  const ScoreChoices: map<int, string> := map[
    1 := [FilledStar, EmptyStar, EmptyStar, EmptyStar, EmptyStar],
    2 := [FilledStar, FilledStar, EmptyStar, EmptyStar, EmptyStar],
    3 := [FilledStar, FilledStar, FilledStar, EmptyStar, EmptyStar],
    4 := [FilledStar, FilledStar, FilledStar, FilledStar, EmptyStar],
    5 := [FilledStar, FilledStar, FilledStar, FilledStar, FilledStar]
  ]

  /** A score passes the validators when it lies in 1..5. */
  predicate ValidScore(score: int)
  {
    1 <= score <= 5
  }

  /** The validators admit exactly the scores that are choices. */
  lemma ValidScoresAreChoices(score: int)
    ensures ValidScore(score) <==> score in ScoreChoices
  {
  }

  /** String repetition `s * n`, which yields the empty string for `n <= 0`. */
  function Repeat(c: char, n: int): (r: string)
    ensures |r| == if n <= 0 then 0 else n
    ensures forall i :: 0 <= i < |r| ==> r[i] == c
  {
    if n <= 0 then [] else [c] + Repeat(c, n - 1)
  }

  /**
   * The star rendering of a score (`nota_estrelas`). For a valid score it has
   * five stars, the first `score` of them filled.
   */
  function Stars(score: int): (s: string)
    ensures ValidScore(score) ==> |s| == 5
    ensures ValidScore(score) ==> forall i :: 0 <= i < score ==> s[i] == FilledStar
    ensures ValidScore(score) ==> forall i :: score <= i < 5 ==> s[i] == EmptyStar
  {
    Repeat(FilledStar, score) + Repeat(EmptyStar, 5 - score)
  }

  /** For a valid score the rendering is the display label of that score's choice. */
  lemma StarsMatchChoiceLabel(score: int)
    requires ValidScore(score)
    ensures score in ScoreChoices && Stars(score) == ScoreChoices[score]
  {
  }

  /** Whether `rs` already holds a rating of `order` by `rater`. */
  predicate Rated(rs: seq<Rating>, order: nat, rater: ProfileId)
  {
    exists i :: 0 <= i < |rs| && rs[i].order == order && rs[i].rater == rater
  }

  /** The table constraint: at most one rating per (order, rater) pair. */
  predicate OnePerOrderAndRater(rs: seq<Rating>)
  {
    forall i, j :: 0 <= i < j < |rs| ==> rs[i].order != rs[j].order || rs[i].rater != rs[j].rater
  }

  datatype RatingError = ScoreOutOfRange | CommentTooLong | AlreadyRated

  const MaxCommentLength: nat := 500

  /**
   * Stores a rating: the form rejects a score outside 1..5 and a comment over
   * 500 characters, then the table rejects a second rating of the same order
   * by the same rater.
   */
  function SaveRating(rs: seq<Rating>, r: Rating): (res: Result<seq<Rating>, RatingError>)
    ensures res.Success? <==> ValidScore(r.score) && |r.comment| <= MaxCommentLength && !Rated(rs, r.order, r.rater)
    ensures res.Success? ==> res.value == rs + [r]
    ensures !ValidScore(r.score) ==> res == Failure(ScoreOutOfRange)
    ensures ValidScore(r.score) && |r.comment| > MaxCommentLength ==> res == Failure(CommentTooLong)
    ensures res.Failure? && ValidScore(r.score) && |r.comment| <= MaxCommentLength ==> res.error == AlreadyRated
  {
    if !ValidScore(r.score) then Failure(ScoreOutOfRange)
    else if |r.comment| > MaxCommentLength then Failure(CommentTooLong)
    else if Rated(rs, r.order, r.rater) then Failure(AlreadyRated)
    else Success(rs + [r])
  }

  /** Saving a rating keeps the one-per-order-and-rater constraint. */
  lemma SaveRatingKeepsUnique(rs: seq<Rating>, r: Rating)
    requires OnePerOrderAndRater(rs)
    ensures SaveRating(rs, r).Success? ==> OnePerOrderAndRater(SaveRating(rs, r).value)
  {
  }
}
