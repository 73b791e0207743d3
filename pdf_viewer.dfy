/**
 * The bill document viewer's pager: the page shown and the page count the
 * document reports once it has loaded. Previous and Next step by one and
 * are disabled at the ends; before the document loads the count is null,
 * which the Next button's `pageNumber >= numPages` test reads as 0.
 */
module PdfViewer {
  import opened Values

  /** `numPages` as the comparisons read it: null counts as 0. */
  function PageCount(numPages: Option<nat>): nat {
    match numPages
    case None => 0
    case Some(n) => n
  }

  /** `{numPages}` in the label: nothing for null, the decimal digits of the count otherwise. */
  function CountText(numPages: Option<nat>): (t: string)
    ensures numPages == None ==> t == ""
    ensures numPages.Some? ==> t == NatText(numPages.value) && DigitsValue(t) == numPages.value
  {
    match numPages
    case None => ""
    case Some(n) => NatTextValue(n); Str(Num(n))
  }

  class PdfViewer {
    var pageNumber: int
    var numPages: Option<nat>

    /** Pages stay within `[1, numPages]` once a non-empty document has loaded. */
    predicate Valid()
      reads this
    {
      && 1 <= pageNumber
      && (numPages == None ==> pageNumber == 1)
      && (PageCount(numPages) >= 1 ==> pageNumber <= PageCount(numPages))
    }

    constructor ()
      ensures pageNumber == 1 && numPages == None && Valid()
    {
      pageNumber := 1;
      numPages := None;
    }

    predicate PreviousDisabled()
      reads this
    {
      pageNumber <= 1
    }

    predicate NextDisabled()
      reads this
    {
      pageNumber >= PageCount(numPages)
    }

    /** Before the document loads, neither button is enabled. */
    lemma NothingEnabledBeforeLoad()
      requires Valid() && numPages == None
      ensures PreviousDisabled() && NextDisabled()
    {
    }

    /** `onDocumentLoadSuccess`: the count is recorded and the pager returns to page 1. */
    method LoadSuccess(n: nat)
      requires Valid()
      modifies this
      ensures Valid()
      ensures numPages == Some(n) && pageNumber == 1
    {
      numPages := Some(n);
      pageNumber := 1;
    }

    /** Previous, pressed while enabled. */
    method PressPrevious()
      requires Valid() && !PreviousDisabled()
      modifies this
      ensures Valid()
      ensures pageNumber == old(pageNumber) - 1 && numPages == old(numPages)
    {
      pageNumber := pageNumber - 1;
    }

    /** Next, pressed while enabled. */
    method PressNext()
      requires Valid() && !NextDisabled()
      modifies this
      ensures Valid()
      ensures pageNumber == old(pageNumber) + 1 && numPages == old(numPages)
    {
      pageNumber := pageNumber + 1;
    }

    /**
     * "Page {pageNumber} of {numPages}": after "Page " come the digits of the
     * page number, then " of ", then the count's text, which is empty while
     * the count is null.
     */
    function Label(): (s: string)
      reads this
      ensures |s| >= 9 && s[..5] == "Page "
      ensures pageNumber >= 0 ==>
                (var p := NatText(pageNumber);
                 && |s| == 9 + |p| + |CountText(numPages)|
                 && s[5..5 + |p|] == p && DigitsValue(p) == pageNumber
                 && s[5 + |p|..9 + |p|] == " of "
                 && s[9 + |p|..] == CountText(numPages))
    {
      var text := "Page " + Str(Num(pageNumber)) + " of " + CountText(numPages);
      if pageNumber >= 0 then NatTextValue(pageNumber); text else text
    }

    /** Before the document loads the label reads "Page 1 of ". */
    lemma LabelBeforeLoad()
      requires Valid() && numPages == None
      ensures Label() == "Page 1 of "
    {
      assert NatText(1) == "1";
    }
  }

  /** A document of one page leaves both buttons disabled. */
  lemma SinglePageDisablesBoth(v: PdfViewer)
    requires v.Valid() && v.numPages == Some(1)
    ensures v.PreviousDisabled() && v.NextDisabled()
  {
  }
}
