/** The review form dialog of the account page (components/myPage/ReviewModal.jsx): it fills
    itself from an existing review or resets, and submits either an update or a creation. */
module ReviewModal {
  import opened Wrappers

  /** A review of the current user (from `GET /reviews/my`), as passed in for editing. */
  datatype ExistingReview = ExistingReview(id: string, productId: string, rating: int, title: Option<string>, content: string)

  /** The order line the dialog is opened for. */
  datatype OrderLine = OrderLine(productId: string, name: string)

  datatype Notice = Updated | Created | SubmitFailed

  /** Requests, alerts and the two parent callbacks, in the order they happen. */
  datatype Event =
    | PutReview(reviewId: string, rating: int, title: string, content: string)
    | PostReview(productId: string, rating: int, title: string, content: string)
    | Alert(notice: Notice)
    | OnClose
    | OnSubmitSuccess

  /** Nothing is rendered while closed or without a product. */
  predicate Renders(isOpen: bool, product: Option<OrderLine>) {
    isOpen && product.Some?
  }

  /** `review.title || ''` */
  function TitleOf(review: ExistingReview): (t: string)
    ensures Present(review.title) ==> t == review.title.value
    ensures !Present(review.title) ==> t == ""
  {
    if Present(review.title) then review.title.value else ""
  }

  class Form {
    var rating: int
    var title: string
    var content: string
    var log: seq<Event>

    constructor()
      ensures rating == 5 && title == "" && content == "" && log == []
    {
      rating, title, content, log := 5, "", "", [];
    }

    /** The effect on opening or on a new review: copy an existing review, or reset to five
        stars and empty texts; while closed, nothing changes. */
    method Sync(isOpen: bool, review: Option<ExistingReview>)
      modifies this`rating, this`title, this`content
      ensures !isOpen ==> rating == old(rating) && title == old(title) && content == old(content)
      ensures isOpen && review.Some? ==>
        rating == review.value.rating && title == TitleOf(review.value) && content == review.value.content
      ensures isOpen && review.None? ==> rating == 5 && title == "" && content == ""
    {
      if isOpen {
        if review.Some? {
          rating := review.value.rating;
          title := TitleOf(review.value);
          content := review.value.content;
        } else {
          rating := 5;
          title := "";
          content := "";
        }
      }
    }

    /** Both text inputs are `required`: the browser submits the form only when neither is empty. */
    predicate CanSubmit()
      reads this
    {
      title != "" && content != ""
    }

    /** A submit of the form: blocked by the browser while a required input is empty,
        otherwise handled by `HandleSubmit`. */
    method SubmitForm(product: OrderLine, review: Option<ExistingReview>, reply: Response<()>)
      modifies this`log
      ensures !old(CanSubmit()) ==> log == old(log)
      ensures old(CanSubmit()) && review.Some? && reply.Ok? ==>
        log == old(log) + [PutReview(review.value.id, rating, title, content), Alert(Updated), OnClose, OnSubmitSuccess]
      ensures old(CanSubmit()) && review.None? && reply.Ok? ==>
        log == old(log) + [PostReview(product.productId, rating, title, content), Alert(Created), OnClose, OnSubmitSuccess]
      ensures old(CanSubmit()) && review.Some? && reply.Failed? ==>
        log == old(log) + [PutReview(review.value.id, rating, title, content), Alert(SubmitFailed)]
      ensures old(CanSubmit()) && review.None? && reply.Failed? ==>
        log == old(log) + [PostReview(product.productId, rating, title, content), Alert(SubmitFailed)]
    {
      if CanSubmit() {
        HandleSubmit(product, review, reply);
      }
    }

    /** `handleSubmit`: an update of the given review, or a creation for the order line's
        product; only after the request succeeds are `onClose` and then `onSubmitSuccess`
        called. The form's fields are left as they are. */
    method HandleSubmit(product: OrderLine, review: Option<ExistingReview>, reply: Response<()>)
      modifies this`log
      ensures review.Some? && reply.Ok? ==>
        log == old(log) + [PutReview(review.value.id, rating, title, content), Alert(Updated), OnClose, OnSubmitSuccess]
      ensures review.None? && reply.Ok? ==>
        log == old(log) + [PostReview(product.productId, rating, title, content), Alert(Created), OnClose, OnSubmitSuccess]
      ensures review.Some? && reply.Failed? ==>
        log == old(log) + [PutReview(review.value.id, rating, title, content), Alert(SubmitFailed)]
      ensures review.None? && reply.Failed? ==>
        log == old(log) + [PostReview(product.productId, rating, title, content), Alert(SubmitFailed)]
    {
      if review.Some? {
        log := log + [PutReview(review.value.id, rating, title, content)];
        if reply.Failed? {
          log := log + [Alert(SubmitFailed)];
          return;
        }
        log := log + [Alert(Updated)];
      } else {
        log := log + [PostReview(product.productId, rating, title, content)];
        if reply.Failed? {
          log := log + [Alert(SubmitFailed)];
          return;
        }
        log := log + [Alert(Created)];
      }
      log := log + [OnClose, OnSubmitSuccess];
    }
  }
}
