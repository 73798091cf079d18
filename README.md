# Solar chat front-end with Korean sentiment annotation — a Dafny model

This project models the two pieces of logic in a small Streamlit chat front-end:

- **Sentiment post-processing** (module `Sentiment`, `sentiment.dfy`). A Korean
  emotion classifier returns one of eleven fine-grained labels and a score.
  The model covers:
  - the fixed table that folds those labels into 긍정 / 중립 / 부정, with
    알 수 없음 for any other label;
  - the 400-character cap on the classifier's input;
  - the two-threshold confidence tiers 높음 / 보통 / 낮음 (0.7 and 0.55 by
    default); in the 낮음 tier the annotation starts with 불확실 instead of
    the coarse label;
  - the annotation text itself;
  - the `{sentiment, sentiment_display, has_sentiment}` record.

  The analyser object keeps the loaded classifier in its `pipeline` field, or
  `None` when loading failed. A ghost log `sent` records every text that was
  handed to the classifier. This makes two things visible: the text is capped,
  and without a pipeline the classifier is never called.
- **Conversation store** (module `Chat`, `chat.dfy`). The session holds an
  ordered list of role-tagged messages:
  - a user turn with non-empty input appends one user message; an empty input starts no turn;
  - a successful reply appends one assistant message;
  - a failed reply appends nothing;
  - a reset clears the list.

  Before each call to the chat model, a loop converts every message but the
  newest, in order, into `Human` / `AI` messages and drops messages of any
  other role. The lemmas about this conversion show that:
  - converting a concatenation converts each part in turn;
  - the newest message's contribution is exactly what is excluded;
  - each user or assistant message lands at a known position with its content
    unchanged;
  - relative order is kept;
  - no history entry is invented;
  - a list of only user and assistant messages converts one-to-one.

The classifier and the chat model are function parameters. They return
`None` where the source catches an exception.

`options.dfy` holds the `Option` datatype shared by both modules.

## Model

| member | source | states |
|---|---|---|
| `Sentiment.Simplify` | sentiment_analysis.py:46-59 | the group is 긍정 exactly for the five positive labels, 중립 exactly for the two neutral ones, 부정 exactly for the four negative ones, and 알 수 없음 exactly for every label outside the table, so each label gets exactly one group |
| `Sentiment.LabelTable` | sentiment_analysis.py:47-49 | the table holds eleven labels and none twice, so the three lists are disjoint |
| `Sentiment.ConvertToSimple` | sentiment_analysis.py:38-65 | no input gives no result; otherwise the original label and the score pass through unchanged and the group is the table's group for the label |
| `Sentiment.Truncate` | sentiment_analysis.py:73-75 | the classifier's text is a prefix of the input of length min(length, 400), so it is the input itself when the input has at most 400 characters |
| `Sentiment.TruncateIdempotent` | sentiment_analysis.py:73-75 | capping an already capped text changes nothing |
| `Sentiment.TierOf` | sentiment_analysis.py:98-104 | 높음 exactly when score ≥ strict; 보통 exactly when neutral ≤ score < strict; 낮음 exactly when the score is below both thresholds |
| `Sentiment.TierMonotonic` | sentiment_analysis.py:99-104 | a higher score never gets a lower tier |
| `Sentiment.DefaultTierExamples` | sentiment_analysis.py:86-88 | with the default thresholds 0.7 and 0.55, score 0.8 is 높음, 0.6 is 보통 and 0.4 is 낮음 |
| `Sentiment.RoundHalfEven` | sentiment_analysis.py:105 | the result is within one half of the input, and on a tie it is even (the rounding of the `.1f` format) |
| `Sentiment.NatTextRoundTrip` | sentiment_analysis.py:105 | the decimal digits written for a natural number read back as that number |
| `Sentiment.PercentText` | sentiment_analysis.py:105 | the percentage ends in a point followed by one digit |
| `Sentiment.PercentTextValue` | sentiment_analysis.py:105 | the text starts with a minus sign exactly for a negative score, and its digits with the point removed read as `score * 1000` rounded half to even, in magnitude: `score * 100` to one decimal |
| `Sentiment.PercentTextExample` | sentiment_analysis.py:105 | a score of 0.4 is written "40.0" |
| `Sentiment.SentimentDisplay` | sentiment_analysis.py:86-107 | no classification gives "" and only that gives ""; otherwise the text is a head followed by the original label, the tier and the percentage, where the head is 불확실 in the 낮음 tier and otherwise the label's group name |
| `Sentiment.DisplayHead` | sentiment_analysis.py:99-107 | in the 높음 and 보통 tiers the annotation starts with the group name; in the 낮음 tier it starts with 불확실, whose first character differs from that of every group name |
| `Sentiment.Package` | sentiment_analysis.py:113-125 | `hasSentiment` is true exactly when there is a result; without one, `sentiment` and `display` are both absent; with one, `sentiment` is that result and `display` is its non-empty annotation under the default thresholds |
| `Sentiment.SentimentAnalysis.constructor` | sentiment_analysis.py:10-36 | the pipeline is the outcome of loading the model (absent when loading failed), and nothing has been sent to the classifier yet |
| `Sentiment.SentimentAnalysis.AnalyzeSentiment` | sentiment_analysis.py:67-84 | without a pipeline the result is absent and the classifier is not called; with one, the classifier is called exactly once, on the capped text, and its answer is returned (absent when it raised) |
| `Sentiment.SentimentAnalysis.ProcessMessageSentiment` | sentiment_analysis.py:109-125 | the record is the packaging of what analysis of the message returns, and the classifier log grows exactly as in `AnalyzeSentiment` |
| `Chat.Convert` | app.py:68-73 | the history is never longer than the list it is built from |
| `Chat.PriorMessages` | app.py:69 | all messages but the newest (putting the newest back gives the list); an empty list gives an empty one |
| `Chat.ConvertAppend` | app.py:68-73 | converting a concatenation is converting each part and concatenating the results |
| `Chat.PriorHistory` | app.py:69 | the history of all but the newest message is the full history minus exactly the newest message's contribution |
| `Chat.ConvertAt` | app.py:70-73 | a user message becomes a `Human` entry and an assistant message an `AI` entry, with the same content, placed after everything its predecessors contribute |
| `Chat.ConvertKeepsOrder` | app.py:68-73 | of two messages, an earlier user or assistant message lands strictly before the later one in the history |
| `Chat.ConvertInventsNothing` | app.py:70-73 | every history entry is the model-facing form of some stored message |
| `Chat.ConvertChatOnly` | app.py:70-73 | when every role is user or assistant, the history has one entry per message, each the form of the message at the same index |
| `Chat.HistoryExample` | app.py:69-73 | for user "a", assistant "b" and the newest user "c", the history is Human "a", AI "b" |
| `Chat.Conversation.constructor` | app.py:12-13 | a new session has no messages |
| `Chat.Conversation.Reset` | app.py:15-17 | after a reset the message list is empty |
| `Chat.Conversation.AddUserMessage` | app.py:61 | exactly one user message carrying the input is appended; earlier messages are unchanged |
| `Chat.Conversation.AddAssistantMessage` | app.py:90 | exactly one assistant message carrying the reply is appended; earlier messages are unchanged |
| `Chat.Conversation.ChatHistory` | app.py:68-73 | the loop's result is the conversion of all but the newest message, in order. It is shorter than the stored list when that list is non-empty. The stored list is not modified |
| `Chat.Conversation.Turn` | app.py:54-93 | an empty input starts no turn: nothing is appended and there is no reply; otherwise the chat model receives the input and the history of the messages that came before this turn, so never the newest message; the list gains the user message, then the assistant reply exactly when generation succeeded |

## Left out

- Streamlit rendering is not modelled: titles, chat bubbles, the sidebar button, `st.error`, `st.stop`, and the `st.rerun` after a reset (app.py:18-28, 49-58). These are UI calls without state of the model's kind.
- Loading the transformers pipeline and running the classification model are not modelled (sentiment_analysis.py:23-36, 77). The loader's outcome is the constructor's parameter; the classifier is a function parameter.
- The `st.cache_resource` caching of the loaded model is framework plumbing and is not modelled.
- The ChatUpstage client, the fixed system prompt and the LangChain prompt template are not modelled (app.py:30-47, 77-84). The chat model is a function parameter that receives the current input and the converted history.
- Reading the API key from `.env` is I/O and is not modelled (app.py:8-10). The same goes for the `print` calls in `_initialize_system`.
- Exceptions are modelled only by where they lead: an absent result from analysis (sentiment_analysis.py:82-84), no assistant message (app.py:92-93), and an absent pipeline when loading fails (sentiment_analysis.py:34-36). The re-raise in `_initialize_system` is not modelled, because the loader already catches every exception itself.
- Scores are exact reals, not binary doubles.
- PercentText: rounds the exact real `score * 1000` half to even. Python formats the nearest binary double, so the two can differ by one in the last digit when that double lies just beside a tie (for example 0.4005: the exact tie 400.5 rounds to "40.0", while the double nearest 0.4005 · 100 is slightly above 40.05 and Python prints "40.1").
- Sentiment results are `Option` values, not dictionaries. An empty dictionary, which Python would also treat as "no result", never reaches these functions: analysis always fills both keys.
- Conversation trimming is not modelled: the code has no turn budget, history trimming or turn counter, so there is nothing to model.
- The chat front-end never calls the sentiment analyser, so the two modules are independent.
