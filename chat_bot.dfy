/** The chat widget: the keyword classifier behind its canned replies and the send/receive steps. */
module ChatBot {
  import opened Text
  import opened Wrappers

  /** The four canned replies, in the order the classifier tries them. */
  datatype Reply = MumbaiColleges | PGOptions | Placements | Fallback

  /** The canned reply texts, as the source writes them. */
  const MumbaiCollegesText := "I found several top engineering colleges in Mumbai:\n\n\U{2022} IIT Bombay - Avg Package: \U{20B9}20 LPA\n\U{2022} VJTI - Avg Package: \U{20B9}8 LPA\n\U{2022} SPIT - Avg Package: \U{20B9}6 LPA\n\nWould you like more details about any of these colleges?"
  const PGOptionsText := "I can help you find verified PG accommodations! Here are some options:\n\n\U{2022} Premium PGs with AC: \U{20B9}12,000-18,000/month\n\U{2022} Standard PGs: \U{20B9}8,000-12,000/month\n\U{2022} Budget PGs: \U{20B9}5,000-8,000/month\n\nWhich location are you looking for?"
  const PlacementsText := "Here are colleges with excellent placement records:\n\n\U{2022} IITs: Average \U{20B9}15-25 LPA\n\U{2022} NITs: Average \U{20B9}8-15 LPA\n\U{2022} Top Private: Average \U{20B9}6-12 LPA\n\nWhich field are you interested in?"
  const FallbackText := "I understand you're looking for information about colleges or PGs. Could you be more specific? For example:\n\n\U{2022} 'Show me CSE colleges in Bangalore'\n\U{2022} 'Find PGs near Anna University'\n\U{2022} 'Compare placement records'\n\U{2022} 'What are the fees for MBA courses?'"

  function ReplyText(r: Reply): string {
    match r
    case MumbaiColleges => MumbaiCollegesText
    case PGOptions => PGOptionsText
    case Placements => PlacementsText
    case Fallback => FallbackText
  }

  /** The priority-ordered keyword tests, on the lower-cased query. */
  function Classify(query: string): Reply {
    var q := Lower(query);
    if Contains(q, "college") && Contains(q, "mumbai") then MumbaiColleges
    else if Contains(q, "pg") || Contains(q, "accommodation") then PGOptions
    else if Contains(q, "placement") || Contains(q, "package") then Placements
    else Fallback
  }

  /** `generateBotResponse` */
  function GenerateBotResponse(query: string): string {
    ReplyText(Classify(query))
  }

  /**
   * The reply is chosen by the first rule that fires: "college" and "mumbai" together
   * beat everything; then "pg" or "accommodation"; then "placement" or "package";
   * otherwise the fallback. Each reply is given for exactly its own case.
   */
  lemma ResponseRules(query: string)
    ensures var q := Lower(query);
      && (Classify(query) == MumbaiColleges <==> Contains(q, "college") && Contains(q, "mumbai"))
      && (Classify(query) == PGOptions <==>
            !(Contains(q, "college") && Contains(q, "mumbai")) && (Contains(q, "pg") || Contains(q, "accommodation")))
      && (Classify(query) == Placements <==>
            !(Contains(q, "college") && Contains(q, "mumbai")) && !Contains(q, "pg") && !Contains(q, "accommodation")
            && (Contains(q, "placement") || Contains(q, "package")))
      && (Classify(query) == Fallback <==>
            !(Contains(q, "college") && Contains(q, "mumbai")) && !Contains(q, "pg") && !Contains(q, "accommodation")
            && !Contains(q, "placement") && !Contains(q, "package"))
  {
  }

  /** The four canned replies are pairwise different strings: no two have the same length. */
  lemma ReplyTextsDistinct()
    ensures forall a: Reply, b: Reply :: a != b ==> ReplyText(a) != ReplyText(b)
  {
    assert |MumbaiCollegesText| != |PGOptionsText| && |MumbaiCollegesText| != |PlacementsText|
        && |MumbaiCollegesText| != |FallbackText|;
    assert |PGOptionsText| != |PlacementsText| && |PGOptionsText| != |FallbackText|
        && |PlacementsText| != |FallbackText|;
  }

  /** The text `generateBotResponse` returns tells which rule fired: it is a reply's text exactly when that reply was chosen. */
  lemma ResponseIdentifiesRule(query: string, r: Reply)
    ensures GenerateBotResponse(query) == ReplyText(r) <==> Classify(query) == r
  {
    ReplyTextsDistinct();
  }

  /** Matching ignores case: queries that lower-case alike get the same reply. */
  lemma ResponseIgnoresCase(query: string, other: string)
    requires Lower(query) == Lower(other)
    ensures Classify(query) == Classify(other)
    ensures Classify(query) == Classify(Lower(query))
  {
    LowerIdempotent(query);
  }

  datatype Sender = User | Bot

  /** A chat message; its id and timestamp are not modelled. */
  datatype Message = Message(text: string, sender: Sender)

  const Greeting := "Hi! I'm UNIVERA's AI assistant. I can help you find colleges and PGs based on your preferences. Try asking me something like 'Show me engineering colleges in Mumbai' or 'Find PGs near VIT Chennai'."

  /** The widget's state: open or closed, the transcript, the input box and the loading flag. */
  class ChatWidget {
    var isOpen: bool
    var messages: seq<Message>
    var inputValue: string
    var isLoading: bool

    constructor ()
      ensures !isOpen && messages == [Message(Greeting, Bot)] && inputValue == "" && !isLoading
    {
      isOpen := false;
      messages := [Message(Greeting, Bot)];
      inputValue := "";
      isLoading := false;
    }

    /** The toggle button. */
    method Toggle()
      modifies this`isOpen
      ensures isOpen == !old(isOpen)
    {
      isOpen := !isOpen;
    }

    /** Typing into the input box. */
    method ChangeInput(value: string)
      modifies this`inputValue
      ensures inputValue == value
    {
      inputValue := value;
    }

    /**
     * `handleSendMessage` up to the timer: a blank input (all whitespace) changes nothing;
     * otherwise the user message is appended, the box is cleared and loading starts.
     * The query the pending reply will answer is returned.
     */
    method HandleSendMessage() returns (pending: Option<string>)
      modifies this`messages, this`inputValue, this`isLoading
      ensures (forall i :: 0 <= i < |old(inputValue)| ==> IsWhitespace(old(inputValue)[i])) ==>
        pending == None && messages == old(messages) && inputValue == old(inputValue) && isLoading == old(isLoading)
      ensures (exists i :: 0 <= i < |old(inputValue)| && !IsWhitespace(old(inputValue)[i])) ==>
        pending == Some(old(inputValue)) && messages == old(messages) + [Message(old(inputValue), User)]
        && inputValue == "" && isLoading
    {
      TrimEmptyIff(inputValue);
      if Trim(inputValue) == "" {
        return None;
      }
      pending := Some(inputValue);
      messages := messages + [Message(inputValue, User)];
      inputValue := "";
      isLoading := true;
    }

    /** The timer callback: appends the bot's reply to the captured query and stops loading. */
    method DeliverBotResponse(query: string)
      modifies this`messages, this`isLoading
      ensures messages == old(messages) + [Message(GenerateBotResponse(query), Bot)]
      ensures !isLoading
    {
      messages := messages + [Message(GenerateBotResponse(query), Bot)];
      isLoading := false;
    }
  }

  /**
   * A whole exchange: after a non-blank send and its reply, the transcript has grown by
   * exactly the user's text and then the reply chosen for that same text.
   */
  method SendAndReply(w: ChatWidget) returns (sent: bool)
    modifies w`messages, w`inputValue, w`isLoading
    ensures w.isOpen == old(w.isOpen)
    ensures sent <==> exists i :: 0 <= i < |old(w.inputValue)| && !IsWhitespace(old(w.inputValue)[i])
    ensures sent ==>
      && w.messages == old(w.messages) + [Message(old(w.inputValue), User), Message(GenerateBotResponse(old(w.inputValue)), Bot)]
      && !w.isLoading && w.inputValue == ""
    ensures !sent ==> w.messages == old(w.messages) && w.inputValue == old(w.inputValue) && w.isLoading == old(w.isLoading)
  {
    var pending := w.HandleSendMessage();
    sent := pending.Some?;
    if sent {
      w.DeliverBotResponse(pending.value);
    }
  }
}
