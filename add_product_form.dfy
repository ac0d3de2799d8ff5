/** The admin's product form of `AddProductForm.js`: the ordered checks of
    `validateForm`, the submit gate and the reset after a successful post.
    `parseFloat(price)` in cents is an input (`None` for `NaN`); the image is
    the chosen file's name. */
module AddProductForm {
  import opened Wrappers
  import opened Text

  const TitleMessage := "Title is required"
  const DescriptionMessage := "Description is required"
  const PriceMissingMessage := "Price is required"
  const PriceInvalidMessage := "Please enter a valid price"
  const ImageMessage := "Product image is required"
  const PostFallback := "Failed to add product. Please try again."

  /** `!s.trim()`: the field holds white space only. */
  predicate Missing(s: string) {
    IsBlank(s)
  }

  /** `Missing` is the source's test: the field trims to the empty string. */
  lemma MissingIsTrimmedEmpty(s: string)
    ensures Missing(s) <==> Trim(s) == []
  {
    TrimEmptyIffBlank(s);
  }

  /** `validateForm`: the message of the first check that fails, or `None`.
      A field that trims to nothing counts as missing. */
  function ValidateProduct(title: string, description: string, price: string,
                           parsedPrice: Option<int>, image: Option<string>): (r: Option<string>)
    ensures r.None? <==>
      !IsBlank(title) && !IsBlank(description) && !IsBlank(price)
      && parsedPrice.Some? && parsedPrice.value >= 0 && image.Some?
  {
    if Missing(title) then Some(TitleMessage)
    else if Missing(description) then Some(DescriptionMessage)
    else if Missing(price) then Some(PriceMissingMessage)
    else if parsedPrice.None? || parsedPrice.value < 0 then Some(PriceInvalidMessage)
    else if image.None? then Some(ImageMessage)
    else None
  }

  /** The first failing check decides the message: a whitespace-only title,
      then description, then price text, then a price that is not a number or
      is negative, then a missing image. */
  lemma ValidateProductOrder(title: string, description: string, price: string,
                             parsedPrice: Option<int>, image: Option<string>)
    ensures var r := ValidateProduct(title, description, price, parsedPrice, image);
      && (IsBlank(title) ==> r == Some(TitleMessage))
      && (!IsBlank(title) && IsBlank(description) ==> r == Some(DescriptionMessage))
      && (!IsBlank(title) && !IsBlank(description) && IsBlank(price) ==> r == Some(PriceMissingMessage))
      && ((!IsBlank(title) && !IsBlank(description) && !IsBlank(price)
           && (parsedPrice.None? || parsedPrice.value < 0)) ==> r == Some(PriceInvalidMessage))
      && ((!IsBlank(title) && !IsBlank(description) && !IsBlank(price)
           && parsedPrice.Some? && parsedPrice.value >= 0 && image.None?) ==> r == Some(ImageMessage))
  {
  }

  /** A price of zero passes the price check. */
  lemma FreeProductAccepted(title: string, description: string, price: string, image: string)
    requires !IsBlank(title) && !IsBlank(description) && !IsBlank(price)
    ensures ValidateProduct(title, description, price, Some(0), Some(image)).None?
  {
  }

  /** The multipart body posted to the product route. */
  datatype Posted = Posted(title: string, description: string, price: string, image: string)

  /** The server's answer to the post: created, or a rejection with its
      `message`, if any. */
  datatype PostAnswer = Created | Refused(message: Option<string>)

  class ProductForm {
    var title: string
    var description: string
    var price: string
    var image: Option<string>
    var previewUrl: string
    var loading: bool
    var error: Option<string>
    var success: bool

    constructor ()
      ensures title == "" && description == "" && price == "" && image.None? && previewUrl == ""
      ensures !loading && error.None? && !success
    {
      title, description, price := "", "", "";
      image := None;
      previewUrl := "";
      loading := false;
      error := None;
      success := false;
    }

    /** The fields a failed submit leaves as they were. */
    predicate SameFields(t: string, d: string, p: string, im: Option<string>, pv: string, ok: bool)
      reads this
    {
      title == t && description == d && price == p && image == im && previewUrl == pv && success == ok
    }

    /** `handleSubmit`. A form that fails validation posts nothing and shows
        the message. A passing form posts its fields as typed; on success every
        field is cleared and the success flag set, on failure the fields stay
        and the message or the fallback is shown. */
    method Submit(parsedPrice: Option<int>, answer: PostAnswer) returns (check: Option<string>, sent: Option<Posted>)
      modifies this
      ensures check == ValidateProduct(old(title), old(description), old(price), parsedPrice, old(image))
      ensures check.Some? ==>
        && sent.None? && loading == old(loading) && error == check
        && SameFields(old(title), old(description), old(price), old(image), old(previewUrl), old(success))
      ensures check.None? ==>
        !loading && old(image).Some? && sent == Some(Posted(old(title), old(description), old(price), old(image).value))
      ensures check.None? && answer.Created? ==> SameFields("", "", "", None, "", true) && error.None?
      ensures check.None? && answer.Refused? ==>
        && SameFields(old(title), old(description), old(price), old(image), old(previewUrl), old(success))
        && error == Some(MessageOr(answer.message, PostFallback))
    {
      if Missing(title) {
        check := Some(TitleMessage);
      } else if Missing(description) {
        check := Some(DescriptionMessage);
      } else if Missing(price) {
        check := Some(PriceMissingMessage);
      } else if parsedPrice.None? || parsedPrice.value < 0 {
        check := Some(PriceInvalidMessage);
      } else if image.None? {
        check := Some(ImageMessage);
      } else {
        check := None;
      }
      if check.Some? {
        error := check;
        return check, None;
      }
      loading := true;
      error := None;
      sent := Some(Posted(title, description, price, image.value));
      match answer {
        case Created =>
          title := "";
          description := "";
          price := "";
          image := None;
          previewUrl := "";
          success := true;
        case Refused(message) =>
          error := Some(MessageOr(message, PostFallback));
      }
      loading := false;
    }
  }
}
