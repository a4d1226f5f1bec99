/** The two pure presentation helpers of utils.py: the icon shown next to a
    cited source, and the user-facing error text. The strings they use live
    in constants.py, which is not part of this model; they are declared here
    as constants with no fixed value, so every property below holds whatever
    their text is. */
module Messages {
  import opened Strings

  /** `ct.LINK_SOURCE_ICON`: shown for web sources. */
  const LinkSourceIcon: string
  /** `ct.DOC_SOURCE_ICON`: shown for file sources. */
  const DocSourceIcon: string
  /** `ct.COMMON_ERROR_MESSAGE`: the "contact your administrator" template. */
  const CommonErrorMessage: string

  /** The icon for a source location: the link icon for anything whose text
      begins with "http" (so "https://..." as well), the document icon for
      everything else, including the empty string and "HTTP://...". */
  function GetSourceIcon(source: string): (icon: string)
    ensures "http" <= source ==> icon == LinkSourceIcon
    ensures !("http" <= source) ==> icon == DocSourceIcon
  {
    if StartsWith(source, "http") then LinkSourceIcon else DocSourceIcon
  }

  /** The message joined to the administrator-contact template by one newline. */
  function BuildErrorMessage(message: string): (text: string)
    ensures text == message + "\n" + CommonErrorMessage
    ensures message <= text
  {
    assert [message, CommonErrorMessage][1..] == [CommonErrorMessage];
    assert Join("\n", [CommonErrorMessage]) == CommonErrorMessage;
    Join("\n", [message, CommonErrorMessage])
  }

  /** A one-line message is exactly the first line of the text shown. */
  lemma ErrorMessageLeadsWithMessage(message: string)
    requires '\n' !in message
    ensures FirstLine(BuildErrorMessage(message)) == message
  {
    FirstLineOfJoined(message, CommonErrorMessage);
  }
}
