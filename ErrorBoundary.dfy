/** `PageErrorBoundary`: on each new route error it sends the user to the
    error page, unless the current path already mentions `500`. */
module ErrorBoundary {
  import opened Common

  const ErrorPage: string := "/500"

  /** The redirect decision: the pathname does not include `500`. */
  predicate ShouldRedirect(pathname: string)
    ensures |pathname| < 3 ==> ShouldRedirect(pathname)
  {
    !Includes(pathname, "500")
  }

  /** On the error page itself the boundary does not redirect again, so an
      error there cannot start a redirect loop. */
  lemma NoRedirectLoop()
    ensures !ShouldRedirect(ErrorPage)
  {
    assert OccursAt(ErrorPage, "500", 1);
  }

  /** Any path holding `500` suppresses the redirect, listing pages such as
      `/branding/1500` included. */
  lemma AnyPathWith500(before: string, after: string)
    ensures !ShouldRedirect(before + "500" + after)
  {
    IncludesAnywhere(before, "500", after);
  }

  /** A path without the digit 5 is redirected, `/dashboard` among them. */
  lemma RedirectWithoutFive(pathname: string)
    requires forall i :: 0 <= i < |pathname| ==> pathname[i] != '5'
    ensures ShouldRedirect(pathname)
  {
    forall i | 0 <= i <= |pathname| - 3
      ensures !OccursAt(pathname, "500", i)
    {
      assert pathname[i..i + 3][0] == pathname[i];
    }
  }

  /** The boundary's state across renders; `E` is the type of route errors,
      whose identity keys the effect. */
  class PageErrorBoundary<E> {
    var mounted: bool
    var lastError: Ref?<E>
    /** The targets of the `navigate` calls so far. */
    ghost var navigations: seq<string>

    constructor ()
      ensures !mounted && navigations == []
    {
      mounted, lastError := false, null;
      navigations := [];
    }

    /** One render with the current route error and pathname. */
    method Render(error: Ref?<E>, pathname: string)
      modifies this
      ensures mounted && lastError == error
      ensures navigations ==
              if (!old(mounted) || error != old(lastError)) && ShouldRedirect(pathname)
              then old(navigations) + [ErrorPage] else old(navigations)
    {
      if !mounted || error != lastError {
        if !Includes(pathname, "500") {
          navigations := navigations + [ErrorPage];
        }
      }
      mounted, lastError := true, error;
    }
  }
}
