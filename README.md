# Internal document search app: verified model of the search and history helpers

This project models the self-contained routines of `utils.py` in the internal-document
search and Q&A chatbot (a Streamlit app over LangChain and OpenAI):

- **Keyword search** (`search_documents_by_keyword`). It does a linear scan over the loaded
  documents and keeps those whose `page_content` contains the keyword as a literal,
  case-sensitive substring. It keeps document order and stops as soon as `max_results` hits
  are collected. Module `KeywordSearch`, file `keyword_search.dfy`. The method
  `SearchDocumentsByKeyword` has the loop and early `break` of the Python code. It is proved
  equal to the specification function `FirstMatches`. `FirstMatches` takes the leading hits of
  `Matches`, the unbounded filter of the documents whose text contains the keyword. The search
  properties are lemmas about these two functions. `max_results` defaults to
  `DefaultMaxResults` (10), as in the Python signature.
- **Conversation history** in `get_llm_response`. The session's `chat_history` list of
  `(role, content)` pairs is rebuilt into human and AI chat messages before the chain is
  called (`get_chat_history_from_session`). After the chain answers, the question and the
  answer are appended. Module `ChatHistory`, file `chat_history.dfy`. The session is a
  class `Session` whose `chatHistory` field is `None` while the key is absent.
  `Session.RawHistory` is `session_state.get("chat_history", [])`. `ToMessage` turns one stored
  pair into a message, and `Rebuild` applies it to the whole history. The rebuild lemmas are
  about these functions. The chain itself is not modelled. Its outcome is an input
  (`ChainOutcome`): either a response (`LlmResponse`: its `"answer"` entry, which may be
  missing, and its `"context"` documents) or a raised exception.
- **Presentation helpers**. `get_source_icon` picks the link icon for sources that start
  with `"http"`. `build_error_message` joins a message and the administrator-contact
  template with a newline, through `Strings.Join`, the model of `"\n".join`. Module
  `Messages`, file `messages.dfy`. The icon and template strings come from `constants.py`, which is not part of this model. They are constants
  with no fixed value, so every property holds whatever their text is.
- **Python string operations** that these routines rely on: `str.startswith`, `key in text`
  and `sep.join`. Module `Strings`, file `strings.dfy`. `Contains` is proved equal to
  "occurs as a contiguous block at some index".

Behaviour that may be surprising (the code, not the intuition, is modelled):

- **Empty keyword.** Python's `"" in s` is always true, so an empty keyword matches every
  document. The search then returns the leading documents, up to the limit
  (`EmptyKeywordTakesLeadingDocuments`). It does not return an empty result.
- **Limit of zero or less.** The limit is checked only after a hit has been appended
  (`utils.py:79`). A `max_results` of zero or less therefore still returns the first hit,
  if there is one (`StopCount`, `FirstMatches`).
- **Any role other than `"user"`** is rebuilt as an AI message, not only `"assistant"`.

## Model

| member | source | states |
|---|---|---|
| `KeywordSearch.SearchDocumentsByKeyword` | utils.py:65-81 | The scan with early exit returns exactly `FirstMatches(keyword, docs, max_results)`. |
| `KeywordSearch.FirstMatches` | utils.py:75-81 | The result has at most `max_results` documents when `max_results >= 1`, and at most one when `max_results <= 0`. |
| `KeywordSearch.StopCount` | utils.py:79-80 | The scan stops after `max_results` hits when that is at least 1, and after exactly one hit when `max_results <= 0`. |
| `KeywordSearch.MatchesExactly` | utils.py:76-78 | An unbounded scan keeps exactly the documents that contain the keyword. Every kept document comes from the input, every input document with a hit is kept, and the hits form a subsequence of the input. |
| `KeywordSearch.MatchesAppend` | utils.py:76-78 | Scanning a concatenation gives the hits of the first part followed by the hits of the second. |
| `KeywordSearch.HitPrefixIsScanPrefix` | utils.py:76-80 | Every prefix of the hits is what the scan collects from some prefix of the documents, so no hit is skipped. |
| `KeywordSearch.StopsAtLimit` | utils.py:79-80 | Once the stop count is reached within `docs[..j]`, the documents after position `j` do not affect the result. |
| `KeywordSearch.ResultsContainKeyword` | utils.py:77-78 | Every returned document is from the input, and its `page_content` contains the keyword as a contiguous substring at some index. |
| `KeywordSearch.ResultsAreFirstInOrder` | utils.py:75-81 | The result keeps input order. It equals all the hits of some prefix of the input, so it is the first hits. |
| `KeywordSearch.FewHitsAllReturned` | utils.py:76-81 | With no more hits than the stop count, the result is all the hits. No document that contains the keyword is missing. |
| `KeywordSearch.ManyHitsFillTheLimit` | utils.py:79-80 | With at least as many hits as the stop count, exactly that many documents are returned. |
| `KeywordSearch.NoDocumentsNoResults` | utils.py:75-76 | An empty document list gives an empty result. |
| `KeywordSearch.EmptyKeywordMatchesAll` | utils.py:77 | With the empty keyword, every document is a hit. |
| `KeywordSearch.EmptyKeywordTakesLeadingDocuments` | utils.py:75-81 | With the empty keyword, the result is the first `min(len(docs), stop count)` documents. |
| `Strings.ContainsIff` | utils.py:77 | Python's substring test on `str` is true exactly when the key occurs as a contiguous block at some index of the text. |
| `Strings.EmptyKeyEverywhere` | utils.py:77 | The empty key is contained in every text. |
| `Strings.StartsWith` | utils.py:122 | `startswith` holds exactly when the prefix is no longer than the text and equals the text's leading slice. |
| `Messages.GetSourceIcon` | utils.py:111-127 | A source that starts with `"http"` (so also `"https..."`) gets `LINK_SOURCE_ICON`. Any other source gets `DOC_SOURCE_ICON`. |
| `Messages.BuildErrorMessage` | utils.py:130-140 | The text is the message, a newline, then `COMMON_ERROR_MESSAGE`. The message is a prefix of the text. |
| `Messages.ErrorMessageLeadsWithMessage` | utils.py:140 | A message without a newline is exactly the first line of the text shown. |
| `ChatHistory.RebuildAt` | utils.py:146-152 | Rebuilding keeps the length and order. Entry i becomes a human message iff its role is `"user"`, and it keeps its content. |
| `ChatHistory.RebuildLength` | utils.py:146-152 | There is one rebuilt message per stored entry. |
| `ChatHistory.RebuildAppend` | utils.py:146-152 | Rebuilding an extended history extends the rebuilt messages in the same way. |
| `ChatHistory.RebuildRoundTrip` | utils.py:147-151 | When every role is `"user"` or `"assistant"`, the stored history can be recovered from the rebuilt messages. |
| `ChatHistory.ExchangeKeepsAlternating` | utils.py:273-276 | Appending a user turn then an assistant turn keeps the history alternating and of even length. |
| `ChatHistory.RebuildAfterExchange` | utils.py:275-276 | After an exchange is recorded, the next rebuild gives the earlier messages followed by the question as a human message and the answer as an AI message. |
| `ChatHistory.Session.GetChatHistoryFromSession` | utils.py:144-152 | The loop returns one message per stored entry, in order. An absent history counts as empty. Entry i becomes `HumanMessage` when its role is `"user"` and `AIMessage` otherwise. |
| `ChatHistory.Session.AppendExchange` | utils.py:273-276 | An absent history is first created empty. The new history is the old one followed by `("user", question)` and then `("assistant", answer)`. Earlier entries are unchanged, and an alternating history stays alternating. |
| `ChatHistory.Session.AppendUserTurn` | utils.py:273-275 | An absent history is first created empty. The new history is the old one (empty if absent) followed by `("user", question)`. |
| `ChatHistory.Session.AppendAssistantTurn` | utils.py:276 | The new history is the existing one followed by `("assistant", answer)`. |
| `ChatHistory.UserTurnAloneBreaksAlternating` | utils.py:275-276 | An alternating history with only a user turn appended is no longer alternating. |
| `ChatHistory.Session.RecordLlmResponse` | utils.py:267-278 | If the chain raises, the same error is raised and the history is left exactly as it was. If the response has an `"answer"`, the user turn and the answer are appended, and the whole response is returned. If the response has no `"answer"`, only the user turn is appended and a missing-answer error is raised. |

## Left out

- `load_all_staff_csv` and `render_hr_list_fixed`: file globbing, CSV reading, DataFrame filtering and Streamlit rendering. They are thin wrappers over pandas and Streamlit.
- `crash_report`: Streamlit output and re-raising. Its only effect that matters here, an exception ending `get_llm_response` before the append, is the `Raised` case of `RecordLlmResponse`.
- Prompt construction, the LLM, the history-aware retriever and the `rag_chain.invoke` call in `get_llm_response`. These are LangChain and OpenAI calls with non-deterministic output. The chain's response, or its failure, is an input to `RecordLlmResponse`.
- `ChatHistory.Session.RecordLlmResponse`: the response dictionary keeps only its `"answer"` and `"context"` entries. The `"input"` and `"chat_history"` entries the chain echoes back are not modelled, because nothing in this core reads them.
- All `st.write` and `print` debug output in `get_llm_response`. It is UI output only.
- The values of `LINK_SOURCE_ICON`, `DOC_SOURCE_ICON` and `COMMON_ERROR_MESSAGE`. constants.py is not part of this model.
- `Messages.GetSourceIcon`: states which constant is returned in each case, but not "iff". That would need the two icon constants to be distinct, which cannot be known without constants.py.
- `main.py`: the Streamlit page script, secrets and environment setup, logging, and the debug-only key masking. None of it is a self-contained function.
- Concurrent requests from the same session: each method runs to completion without interleaving.
