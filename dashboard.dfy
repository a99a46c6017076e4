/** The estimation and session-history core of the AI energy and CO2 dashboard:
    the token-to-energy-to-CO2 conversion, the extraction of the generated text
    and token counters from a chat-completion reply (with its failure fallback),
    and the append-only table of queries kept for the session. */
module Dashboard {

  datatype Option<+T> = None | Some(value: T) {
    function GetOr(default: T): T {
      match this
      case Some(v) => v
      case None => default
    }
  }

  // ---------------------------------------------------------------------------
  // Energy and CO2 estimate
  // ---------------------------------------------------------------------------

  /** Kilograms of CO2 per kWh (an approximate US grid average). */
  const UsGridCo2Factor: real := 0.4
  /** kWh spent per 1000 tokens (a placeholder figure). */
  const EnergyPer1kTokensKwh: real := 0.0003

  datatype Footprint = Footprint(energyKwh: real, co2Kg: real)

  /** Energy in kWh and CO2 in kg for a number of tokens, computed exactly. */
  function CalculateEnergyCo2(tokens: int): (f: Footprint)
    ensures tokens == 0 ==> f.energyKwh == 0.0 && f.co2Kg == 0.0
    ensures tokens >= 0 ==> f.energyKwh >= 0.0 && f.co2Kg >= 0.0
    ensures f.energyKwh * 1000.0 == tokens as real * EnergyPer1kTokensKwh
    ensures f.co2Kg == f.energyKwh * UsGridCo2Factor
  {
    var energy := (tokens as real / 1000.0) * EnergyPer1kTokensKwh;
    var co2 := energy * UsGridCo2Factor;
    Footprint(energy, co2)
  }

  /** Energy and CO2 are additive in the number of tokens. */
  lemma FootprintAdditive(a: int, b: int)
    ensures CalculateEnergyCo2(a + b).energyKwh
         == CalculateEnergyCo2(a).energyKwh + CalculateEnergyCo2(b).energyKwh
    ensures CalculateEnergyCo2(a + b).co2Kg
         == CalculateEnergyCo2(a).co2Kg + CalculateEnergyCo2(b).co2Kg
  {
  }

  /** More tokens never give a smaller estimate. */
  lemma FootprintMonotone(a: int, b: int)
    requires a <= b
    ensures CalculateEnergyCo2(a).energyKwh <= CalculateEnergyCo2(b).energyKwh
    ensures CalculateEnergyCo2(a).co2Kg <= CalculateEnergyCo2(b).co2Kg
  {
  }

  /** One thousand tokens cost 0.0003 kWh and 0.00012 kg of CO2. */
  lemma FootprintOfThousandTokens()
    ensures CalculateEnergyCo2(1000) == Footprint(0.0003, 0.00012)
  {
  }

  // ---------------------------------------------------------------------------
  // Reply of the chat-completion API and the extraction of its usage counters
  // ---------------------------------------------------------------------------

  /** The `usage` object of a reply; a counter is None when its key is absent. */
  datatype Usage = Usage(promptTokens: Option<int>, completionTokens: Option<int>, totalTokens: Option<int>)

  /** What the reply holds under the key `usage`. */
  datatype UsageField =
    | UsageAbsent            // no `usage` key: it reads as an empty object
    | UsageObject(usage: Usage)
    | UsageNotObject         // present but not an object (e.g. null): reading a counter raises

  /** A decoded JSON reply; `content` is None when `choices[0].message.content` cannot be read. */
  datatype Body = Body(content: Option<string>, usage: UsageField)

  /** Outcome of posting the request: either the POST or the JSON decoding raised, or a decoded body. */
  datatype Reply = Raised | Decoded(body: Body)

  /** The (text, input tokens, output tokens, total tokens) tuple handed back to the caller. */
  datatype Completion = Completion(text: string, inputTokens: int, outputTokens: int, totalTokens: int)

  /** What the caller gets when anything in the call raises. */
  const Fallback := Completion("", 0, 0, 0)

  /** True when reading the text and every counter of the reply raises nothing. */
  predicate Readable(reply: Reply) {
    reply.Decoded? && reply.body.content.Some? && !reply.body.usage.UsageNotObject?
  }

  /** The text and token counters of a reply: absent counters read as 0, an absent
      total as input plus output, a present total verbatim; any failure gives Fallback. */
  function ExtractCompletion(reply: Reply): (c: Completion)
    ensures !Readable(reply) ==> c == Fallback
    ensures Readable(reply) && reply.body.usage.UsageAbsent? ==>
      c == Completion(reply.body.content.value, 0, 0, 0)
    ensures Readable(reply) && reply.body.usage.UsageObject? ==>
      var u := reply.body.usage.usage;
      && c.text == reply.body.content.value
      && (u.promptTokens.None? ==> c.inputTokens == 0)
      && (u.promptTokens.Some? ==> c.inputTokens == u.promptTokens.value)
      && (u.completionTokens.None? ==> c.outputTokens == 0)
      && (u.completionTokens.Some? ==> c.outputTokens == u.completionTokens.value)
      && (u.totalTokens.None? ==> c.totalTokens == c.inputTokens + c.outputTokens)
      && (u.totalTokens.Some? ==> c.totalTokens == u.totalTokens.value)
  {
    match reply
    case Raised => Fallback
    case Decoded(body) =>
      if body.content.None? then Fallback
      else
        match body.usage
        case UsageNotObject => Fallback
        case UsageAbsent => Counted(body.content.value, Usage(None, None, None))
        case UsageObject(usage) => Counted(body.content.value, usage)
  }

  /** The tuple for a readable reply whose usage object (an empty one when absent) is `usage`. */
  function Counted(text: string, usage: Usage): Completion {
    var inputTokens := usage.promptTokens.GetOr(0);
    var outputTokens := usage.completionTokens.GetOr(0);
    var totalTokens := usage.totalTokens.GetOr(inputTokens + outputTokens);
    Completion(text, inputTokens, outputTokens, totalTokens)
  }

  /** A reply without a usage object counts no tokens at all. */
  lemma NoUsageCountsNothing(text: string)
    ensures ExtractCompletion(Decoded(Body(Some(text), UsageAbsent))) == Completion(text, 0, 0, 0)
  {
  }

  /** 100 prompt tokens and 50 completion tokens with no reported total give a total of 150. */
  lemma TotalDefaultsToSum(text: string)
    ensures ExtractCompletion(Decoded(Body(Some(text), UsageObject(Usage(Some(100), Some(50), None)))))
         == Completion(text, 100, 50, 150)
  {
  }

  /** A reported total is kept even when it disagrees with input plus output. */
  lemma ReportedTotalKeptVerbatim(text: string)
    ensures ExtractCompletion(Decoded(Body(Some(text), UsageObject(Usage(Some(100), Some(50), Some(200))))))
         == Completion(text, 100, 50, 200)
  {
  }

  // ---------------------------------------------------------------------------
  // Session history
  // ---------------------------------------------------------------------------

  /** The models offered for selection. */
  const Models: seq<string> := [
    "x-ai/grok-4-fast:free",
    "openai/gpt-oss-20b:free",
    "google/gemma-3n-e4b-it:free",
    "meta-llama/llama-4-maverick:free"
  ]

  /** One row of the history table. */
  datatype Record = Record(
    id: int, model: string, prompt: string,
    inputTokens: int, outputTokens: int, totalTokens: int,
    energyKwh: real, co2Kg: real, response: string)

  /** The arguments passed to the API call. */
  datatype ApiCall = ApiCall(model: string, prompt: string, apiKey: string)

  /** The row stored for a call whose reply gave completion `c`. */
  function Entry(id: int, model: string, prompt: string, c: Completion): (r: Record)
    ensures r.id == id && r.model == model && r.prompt == prompt
    ensures r.inputTokens == c.inputTokens && r.outputTokens == c.outputTokens
    ensures r.totalTokens == c.totalTokens && r.response == c.text
    ensures Consistent(r)
    ensures c.totalTokens >= 0 ==> r.energyKwh >= 0.0 && r.co2Kg >= 0.0
  {
    var f := CalculateEnergyCo2(c.totalTokens);
    Record(id, model, prompt, c.inputTokens, c.outputTokens, c.totalTokens, f.energyKwh, f.co2Kg, c.text)
  }

  /** A row whose energy and CO2 are the estimate for its total tokens. */
  predicate Consistent(r: Record) {
    var f := CalculateEnergyCo2(r.totalTokens);
    r.energyKwh == f.energyKwh && r.co2Kg == f.co2Kg
  }

  /** The history invariant: the n-th row has id n, an offered model, and a consistent estimate. */
  predicate WellFormed(h: seq<Record>) {
    forall i :: 0 <= i < |h| ==> h[i].id == i + 1 && h[i].model in Models && Consistent(h[i])
  }

  /** The history after one press of "Generate Answer". */
  function AfterSubmit(h: seq<Record>, apiKey: string, model: string, prompt: string, reply: Reply): (h': seq<Record>)
    ensures apiKey == "" ==> h' == h
    ensures apiKey != "" ==>
      && |h'| == |h| + 1
      && h'[..|h|] == h
      && h'[|h|].id == |h| + 1
      && h'[|h|].model == model
      && h'[|h|].prompt == prompt
      && h'[|h|].inputTokens == ExtractCompletion(reply).inputTokens
      && h'[|h|].outputTokens == ExtractCompletion(reply).outputTokens
      && h'[|h|].totalTokens == ExtractCompletion(reply).totalTokens
      && h'[|h|].response == ExtractCompletion(reply).text
      && Consistent(h'[|h|])
  {
    if apiKey == "" then h
    else h + [Entry(|h| + 1, model, prompt, ExtractCompletion(reply))]
  }

  /** Submitting keeps the history well formed. */
  lemma AfterSubmitWellFormed(h: seq<Record>, apiKey: string, model: string, prompt: string, reply: Reply)
    requires WellFormed(h) && model in Models
    ensures WellFormed(AfterSubmit(h, apiKey, model, prompt, reply))
  {
  }

  /** A call that failed still appends a row, carrying zero tokens, zero energy and no text. */
  lemma FailedCallAppendsZeroRow(h: seq<Record>, apiKey: string, model: string, prompt: string, reply: Reply)
    requires apiKey != "" && !Readable(reply)
    ensures AfterSubmit(h, apiKey, model, prompt, reply)
         == h + [Record(|h| + 1, model, prompt, 0, 0, 0, 0.0, 0.0, "")]
  {
  }

  /** One press of the button, with the reply the API gives if it is called. */
  datatype Click = Click(apiKey: string, model: string, prompt: string, reply: Reply)

  /** The history after a session's presses, in order, starting from the empty table. */
  function Replay(clicks: seq<Click>): (h: seq<Record>)
    ensures |h| <= |clicks|
    ensures forall i :: 0 <= i < |h| ==> h[i].id == i + 1
  {
    if clicks == [] then []
    else
      var c := clicks[|clicks| - 1];
      AfterSubmit(Replay(clicks[..|clicks| - 1]), c.apiKey, c.model, c.prompt, c.reply)
  }

  /** The presses that had an API key, in order. */
  function Keyed(clicks: seq<Click>): seq<Click> {
    if clicks == [] then []
    else
      var c := clicks[|clicks| - 1];
      Keyed(clicks[..|clicks| - 1]) + if c.apiKey != "" then [c] else []
  }

  /** The row a press produces when it is the n-th to be recorded. */
  function EntryFor(n: int, c: Click): Record {
    Entry(n, c.model, c.prompt, ExtractCompletion(c.reply))
  }

  /** The table of a session is exactly its keyed presses, numbered from 1 in order. */
  lemma {:induction false} ReplayNumbersKeyedClicks(clicks: seq<Click>)
    ensures |Replay(clicks)| == |Keyed(clicks)|
    ensures forall n :: 0 <= n < |Replay(clicks)| ==> Replay(clicks)[n] == EntryFor(n + 1, Keyed(clicks)[n])
  {
    if clicks != [] {
      var init := clicks[..|clicks| - 1];
      ReplayNumbersKeyedClicks(init);
    }
  }

  /** A session whose presses all chose an offered model yields a well-formed table. */
  lemma {:induction false} ReplayWellFormed(clicks: seq<Click>)
    requires forall i :: 0 <= i < |clicks| ==> clicks[i].model in Models
    ensures WellFormed(Replay(clicks))
  {
    if clicks != [] {
      var init := clicks[..|clicks| - 1];
      var c := clicks[|clicks| - 1];
      ReplayWellFormed(init);
      AfterSubmitWellFormed(Replay(init), c.apiKey, c.model, c.prompt, c.reply);
    }
  }

  /** The history table held in the session state. */
  class History {
    var records: seq<Record>

    ghost predicate Valid()
      reads this
    {
      WellFormed(records)
    }

    /** A new session starts with an empty table. */
    constructor ()
      ensures Valid() && records == []
    {
      records := [];
    }

    /** The "Generate Answer" handler: with no API key nothing happens and no call is
        made; otherwise the API is called once and exactly one row is appended, also
        when the call failed. Returns the call made, if any. */
    method Submit(apiKey: string, model: string, prompt: string, reply: Reply) returns (call: Option<ApiCall>)
      requires Valid() && model in Models
      modifies this
      ensures Valid()
      ensures call == if apiKey == "" then None else Some(ApiCall(model, prompt, apiKey))
      ensures records == AfterSubmit(old(records), apiKey, model, prompt, reply)
      ensures apiKey != "" ==>
        Latest() == Some(Entry(|old(records)| + 1, model, prompt, ExtractCompletion(reply)))
    {
      if apiKey == "" {
        call := None;
        return;
      }
      call := Some(ApiCall(model, prompt, apiKey));
      var completion := ExtractCompletion(reply);
      var footprint := CalculateEnergyCo2(completion.totalTokens);
      var entry := Record(|records| + 1, model, prompt,
                          completion.inputTokens, completion.outputTokens, completion.totalTokens,
                          footprint.energyKwh, footprint.co2Kg, completion.text);
      AfterSubmitWellFormed(records, apiKey, model, prompt, reply);
      records := records + [entry];
    }

    /** The row shown as the latest response: present only when the table is non-empty. */
    function Latest(): (r: Option<Record>)
      reads this
      ensures r.Some? <==> records != []
      ensures r.Some? ==> r.value == records[|records| - 1]
      ensures r.Some? && Valid() ==>
        r.value.id == |records| && forall i :: 0 <= i < |records| ==> records[i].id <= r.value.id
    {
      if records == [] then None else Some(records[|records| - 1])
    }
  }
}
