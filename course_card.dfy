/**
 * The course card (src/components/courses/course-card.tsx): the `getCourseName`
 * helper (defined in the component but never called from it), the three-word heading
 * the overlay shows between its fixed "THE" and "COURSE" labels, the image's alt text,
 * and the wishlist toggle, the card's one piece of local state.
 */
module CourseCard {
  import opened Wrappers
  import opened ShopifyTypes
  import opened Text

  /** `tags.find(tag => tag.toLowerCase().includes("course"))`, as the index found. */
  function FirstCourseTag(tags: seq<string>): (r: Option<nat>)
    ensures r.None? <==> forall i :: 0 <= i < |tags| ==> !Contains(Lower(tags[i]), "course")
    ensures r.Some? ==>
      && r.value < |tags|
      && Contains(Lower(tags[r.value]), "course")
      && forall i :: 0 <= i < r.value ==> !Contains(Lower(tags[i]), "course")
  {
    if tags == [] then None
    else if Contains(Lower(tags[0]), "course") then Some(0)
    else match FirstCourseTag(tags[1..])
      case None => None
      case Some(i) => Some(i + 1)
  }

  /**
   * `getCourseName`: the first tag mentioning "course" (in any case), upper-cased;
   * else the upper-cased title if it mentions "COURSE"; else "THE <TITLE> COURSE".
   * Whatever the branch, the name is upper-case and mentions "COURSE".
   */
  function GetCourseName(tags: seq<string>, title: string): (r: string)
    ensures NoLowercase(r)
    ensures Contains(r, "COURSE")
    ensures FirstCourseTag(tags).Some? ==> r == Upper(tags[FirstCourseTag(tags).value])
    ensures FirstCourseTag(tags).None? && Contains(Upper(title), "COURSE") ==> r == Upper(title)
    ensures FirstCourseTag(tags).None? && !Contains(Upper(title), "COURSE") ==>
      r == "THE " + Upper(title) + " COURSE"
  {
    match FirstCourseTag(tags)
    // a tag that contains "course" is never the empty (falsy) string
    case Some(i) =>
      LowerMatchGivesUpperMatch(tags[i], "course");
      assert Upper("course") == "COURSE";
      UpperIsUppercase(tags[i]);
      Upper(tags[i])
    case None =>
      var upperTitle := Upper(title);
      UpperIsUppercase(title);
      if Contains(upperTitle, "COURSE") then upperTitle
      else
        ContainsSuffix("THE " + upperTitle, " COURSE");
        ContainsSuffix("THE " + upperTitle + " ", "COURSE");
        assert "THE " + upperTitle + " " + "COURSE" == "THE " + upperTitle + " COURSE";
        "THE " + upperTitle + " COURSE"
  }

  /** `title.split(" ").slice(0, 3).join(" ").toUpperCase()`. */
  function Heading(title: string): (r: string)
    ensures NoLowercase(r)
  {
    UpperIsUppercase(Join(Take(Split(title), 3)));
    Upper(Join(Take(Split(title), 3)))
  }

  /**
   * The overlay heading is the upper-cased title cut just before its third space, or
   * the whole upper-cased title when it has fewer than three spaces.
   */
  lemma HeadingIsPrefixBeforeThirdSpace(title: string)
    ensures CountSpaces(title) < 3 ==> Heading(title) == Upper(title)
    ensures forall p :: 0 <= p < |title| && title[p] == ' ' && CountSpaces(title[..p]) == 2 ==>
      Heading(title) == Upper(title[..p])
  {
    if CountSpaces(title) < 3 {
      JoinFirstPiecesWhole(title, 3);
    }
    forall p | 0 <= p < |title| && title[p] == ' ' && CountSpaces(title[..p]) == 2
      ensures Heading(title) == Upper(title[..p])
    {
      JoinFirstPiecesPrefix(title, 3, p);
    }
  }

  /** The card image's alt text, `altText || title`; None when there is no image to show. */
  function ImageAlt(image: Option<Image>, title: string): (r: Option<string>)
    ensures r.Some? <==> image.Some?
    ensures r.Some? && (image.value.altText.None? || image.value.altText.value == "") ==> r.value == title
    ensures r.Some? && image.value.altText.Some? && image.value.altText.value != "" ==>
      r.value == image.value.altText.value
  {
    match image
    case None => None
    case Some(img) => Some(OrElse(img.altText, title))
  }

  const AddLabel := "Add to wishlist"
  const RemoveLabel := "Remove from wishlist"

  /** The heart button's `isWishlisted` state cell. */
  class WishlistButton {
    var isWishlisted: bool

    constructor ()
      ensures !isWishlisted
    {
      isWishlisted := false;
    }

    /** The click handler: `setIsWishlisted(!isWishlisted)`. */
    method Click()
      modifies this
      ensures isWishlisted == !old(isWishlisted)
    {
      isWishlisted := !isWishlisted;
    }

    /** The button's aria label follows the flag. */
    function AriaLabel(): (r: string)
      reads this
      ensures r == RemoveLabel <==> isWishlisted
      ensures r == AddLabel <==> !isWishlisted
    {
      if isWishlisted then RemoveLabel else AddLabel
    }
  }

  /** From any state: one click swaps the label, and a second click restores the flag and its label. */
  method ClickTwice(button: WishlistButton) returns (labels: seq<string>)
    modifies button
    ensures |labels| == 3
    ensures labels[0] == (if old(button.isWishlisted) then RemoveLabel else AddLabel)
    ensures labels[1] != labels[0] && labels[2] == labels[0]
    ensures button.isWishlisted == old(button.isWishlisted)
  {
    labels := [button.AriaLabel()];
    button.Click();
    labels := labels + [button.AriaLabel()];
    button.Click();
    labels := labels + [button.AriaLabel()];
  }

}
