/** The LinkedIn step of onboarding: the profile URL field and its check. */
module LinkedInStep {
  import opened Common

  /** The check is case-sensitive substring matching on the two URL shapes. */
  predicate IsLinkedInUrl(url: string)
  {
    Contains(url, "linkedin.com/in/") || Contains(url, "linkedin.com/company/")
  }

  /** Profile and company page URLs pass, wherever the shape occurs. */
  lemma ProfileAndCompanyUrlsPass(prefix: string, rest: string)
    ensures IsLinkedInUrl(prefix + "linkedin.com/in/" + rest)
    ensures IsLinkedInUrl(prefix + "linkedin.com/company/" + rest)
  {
    ContainsInfix(prefix, "linkedin.com/in/", rest);
    ContainsInfix(prefix, "linkedin.com/company/", rest);
  }

  /** The profile preview: shown on a passed check with a non-empty stored URL. */
  predicate ShowsPreview(isValid: Option<bool>, storedUrl: string)
  {
    isValid == Some(true) && storedUrl != ""
  }

  class UrlValidation {
    var isValidating: bool
    /** `null` (None) until a non-empty URL has been checked. */
    var isValid: Option<bool>

    constructor()
      ensures !isValidating && isValid.None?
    {
      isValidating := false;
      isValid := None;
    }

    /** `validateLinkedInUrl`: an empty URL clears the verdict without a
        check; otherwise the check runs, with `isValidating` set while it is
        awaited (`validatingDuring`). */
    method Validate(url: string) returns (validatingDuring: bool)
      modifies this
      ensures url == "" ==> isValid.None? && isValidating == old(isValidating) && !validatingDuring
      ensures url != "" ==> validatingDuring && !isValidating && isValid == Some(IsLinkedInUrl(url))
    {
      if url == "" {
        isValid := None;
        return false;
      }
      isValidating := true;
      validatingDuring := isValidating;
      isValid := Some(Contains(url, "linkedin.com/in/") || Contains(url, "linkedin.com/company/"));
      isValidating := false;
    }

    /** `handleUrlChange`: hands the raw value to the form, then checks it. */
    method UrlChange(value: string) returns (pushed: string, validatingDuring: bool)
      modifies this
      ensures pushed == value
      ensures value == "" ==> isValid.None? && isValidating == old(isValidating)
      ensures value != "" ==> !isValidating && isValid == Some(IsLinkedInUrl(value))
      ensures ShowsPreview(isValid, pushed) ==> IsLinkedInUrl(pushed)
    {
      pushed := value;
      validatingDuring := Validate(value);
    }
  }
}
