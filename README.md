# AI energy and CO₂ dashboard — verified model of its core

The dashboard sends a prompt to a hosted chat-completion API (OpenRouter), reads
the token counters from the reply, estimates the energy (kWh) and CO₂ (kg) of the
call from its total token count, and appends one row per call to a history table
kept in the session state. It then shows the latest row and charts over the table.

`dashboard.dfy` holds one module, `Dashboard`, with three parts:

- **Energy and CO₂ estimate.** `CalculateEnergyCo2` turns a token count into
  `Footprint(energyKwh, co2Kg)` over exact reals. It uses the two constants of the
  program: 0.0003 kWh per 1000 tokens and 0.4 kg CO₂ per kWh.
- **Usage extraction.** The decoded reply is an abstract datatype (`Reply`, `Body`,
  `UsageField`, `Usage`). `ExtractCompletion` returns the `(text, input, output, total)`
  tuple that the API helper hands back, including the `("", 0, 0, 0)` fallback
  when anything in the call raises.
- **Session history.** `History` is a class holding `records: seq<Record>`. Its
  `Submit` method models the "Generate Answer" handler and `Latest` models the
  latest-row view. `AfterSubmit` is the function that specifies `Submit`.
  `Replay` folds `AfterSubmit` over a session's button presses (`Click`), and the
  lemmas about it give the whole-session shape of the table.

The network is not modelled. The reply the API would give is a parameter of
`Submit`. Its out-parameter `call` records whether the API helper was invoked,
and with which model, prompt and key.

Behaviour of the program that the model keeps as it is:

- A call that fails (transport error, error body without `choices`, unreadable
  `usage`) still appends a row, with zero tokens, zero energy and CO₂, and an
  empty response (app.py:62-64, 80-97; `FailedCallAppendsZeroRow`).
- An empty prompt is not rejected; only an empty API key stops a submission
  (app.py:76-77).
- Every failure gives the same fallback tuple `("", 0, 0, 0)`; failures are not
  told apart.
- One energy coefficient applies to every model (app.py:10).

## Model

| member | source | states |
|---|---|---|
| `Dashboard.CalculateEnergyCo2` | app.py:66-69 | 0 tokens give zero energy and CO₂. A non-negative count gives non-negative energy and CO₂. Energy is exactly 0.0003 kWh per 1000 tokens, and CO₂ is exactly 0.4 × energy. |
| `Dashboard.FootprintAdditive` | app.py:66-69 | Energy and CO₂ of a + b tokens are the sums of those of a and of b tokens. |
| `Dashboard.FootprintMonotone` | app.py:66-69 | a ≤ b implies energy(a) ≤ energy(b) and CO₂(a) ≤ CO₂(b). |
| `Dashboard.FootprintOfThousandTokens` | app.py:9-10 | With the program's constants, 1000 tokens give 0.0003 kWh and 0.00012 kg CO₂. |
| `Dashboard.ExtractCompletion` | app.py:53-64 | A failed POST or decode, a missing `choices[0].message.content`, or a `usage` that is not an object gives exactly `("", 0, 0, 0)`. A readable reply without `usage` gives `(content, 0, 0, 0)`. With a usage object, the text is the content, an absent counter is 0, an absent total is input + output, and a present total is returned verbatim. |
| `Dashboard.NoUsageCountsNothing` | app.py:57-60 | A reply with content but no `usage` gives zero input, output and total tokens. |
| `Dashboard.TotalDefaultsToSum` | app.py:58-60 | prompt_tokens = 100 and completion_tokens = 50 with no total_tokens give total 150. |
| `Dashboard.ReportedTotalKeptVerbatim` | app.py:60 | A reported total_tokens of 200 is kept even though input + output is 150. |
| `Dashboard.AfterSubmit` | app.py:75-97 | An empty API key leaves the history unchanged. Otherwise exactly one row is appended at the end. Earlier rows are unchanged. The new row has id = old length + 1, the chosen model and prompt verbatim, the input, output and total tokens and the text that the call returned, and the energy and CO₂ estimate of its total tokens. |
| `Dashboard.Entry` | app.py:81-96 | The row built for a call carries the given id, model and prompt, the call's input, output and total tokens and its text, and the energy and CO₂ estimate of that total, which is non-negative when the total is. |
| `Dashboard.AfterSubmitWellFormed` | app.py:84-97 | Submitting preserves the invariant: the n-th row has id n, an offered model, and a consistent estimate. |
| `Dashboard.FailedCallAppendsZeroRow` | app.py:62-97 | With a key and a failed call, the appended row is `(old length + 1, model, prompt, 0, 0, 0, 0.0, 0.0, "")`. |
| `Dashboard.Replay` | app.py:33-97 | The table after a session of presses, starting from the empty table, has at most one row per press, and its i-th row (from 0) has id i + 1. |
| `Dashboard.ReplayNumbersKeyedClicks` | app.py:75-97 | After any session of presses, the table has one row per press made with a key, in order. The n-th row has id n and is built from the n-th such press and its reply. |
| `Dashboard.ReplayWellFormed` | app.py:33-97 | A session that starts from the empty table, in which every press chose an offered model, leaves a table satisfying the history invariant. |
| `Dashboard.History.constructor` | app.py:33-39 | A session starts with an empty table, which satisfies the invariant. |
| `Dashboard.History.Submit` | app.py:75-97 | No API call and no change when the key is empty. Otherwise exactly one call, with the chosen model, prompt and key. The new table is `AfterSubmit` of the old one, the invariant is kept, and the latest row is the new entry. |
| `Dashboard.History.Latest` | app.py:104-105 | A latest row exists iff the table is non-empty, and it is the last element. Under the invariant its id equals the row count and is the largest id. |

## Left out

- Streamlit page setup, widgets, spinner and the success, warning and error messages (app.py:15-30, 74-79, 99, 106-115): user-interface side effects.
- The HTTP request itself (URL, bearer header, JSON payload, app.py:46-54) and `response.json()`: network I/O and a foreign library. The reply is a parameter, and any exception they raise is the `Raised` reply.
- Counter values in `usage` that are not integers, and `content` values that are not strings: the model takes every present counter as an integer and every present content as a string. In the program the outcome depends on the JSON type. Float counters add and convert without error, and a row with float counters is stored. A `"content": null` is read without raising, so a row is stored with the reply's real counters and a `None` response. Two string counters concatenate at app.py:60; with a numeric `total_tokens` they are stored as strings, and the energy is computed from the total. A null counter, or a string counter beside a number, makes the sum at app.py:60 raise, which gives the fallback tuple. A non-numeric total raises in the energy computation at app.py:67, outside the try block, and no row is stored.
- Floating-point rounding and the six-decimal display: quantities are exact reals.
- The pandas DataFrame mechanics (`pd.concat`, `iloc`): modelled as sequence append and last-element read.
- The Plotly charts and the history table display (app.py:117-160), including the per-model CO₂ grouping that the pie chart does inside its library.
- Streamlit's re-running of the whole script on each interaction: modelled by `Replay` as a sequence of button presses over one persisting table.
