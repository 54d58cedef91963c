/**
 * The shopping assistant hook of hooks/useTinderaChat.ts: a message list
 * that starts with a greeting, a keyword router that picks the canned reply
 * for a message, and the loading flag shown while a reply is on its way.
 *
 * The reply arrives after a simulated delay; sending a message and the
 * reply arriving are therefore two events (Send and ReplyArrives), and the
 * replies still due are kept in `pending`, oldest first. Message ids come
 * from the clock (`Date.now()`), which is a parameter; timestamps are left
 * out.
 */
module TinderaChat {
  import opened Text

  datatype Role = UserRole | Assistant

  datatype Message = Message(id: string, role: Role, content: string)

  const Greeting: string :=
    "Hi suki! 👋 Welcome sa Tinda! Ano ang gusto mo today? Fresh vegetables, best prices, or vendor recommendations? Nandito ako to help! 💚"

  const VegetableReply: string :=
    "Mayroong fresh vegetables ngayon! Check out Mang Jose sa San Juan - sariwa ang kanyang produce. May discount pa for regular customers! 🥬"
  const PriceReply: string :=
    "Best deals ngayong linggo: Kamote - ₱50/kg, Cabbage - ₱30/kg, Tomato - ₱60/kg. Mag-order na para makatipid! 💰"
  const DeliveryReply: string :=
    "Para sa delivery options, check your order details sa app. May same-day delivery kami sa selected areas! 🚚 Anong area ka ba?"
  const LoyaltyReply: string :=
    "Earn Suki points sa bawat order! Accumulate points para sa discounts at freebies. Mas maraming bili, mas maraming rewards! 🎁"
  const VendorReply: string :=
    "Looking for vendors? Tell me what area you're in, I can recommend the best local vendors near you! 📍"
  const DefaultReply: string :=
    "That's a great question! To help you better, pwede mo i-refine? Looking for fresh produce, vendors, prices, or something else? 🤔"

  /** The single greeting the list starts with, and is reset to. */
  const Initial: seq<Message> := [Message("0", Assistant, Greeting)]

  /** The lower-cased message mentions one of the two keywords of a group. */
  predicate Mentions(lower: string, a: string, b: string) {
    Contains(lower, a) || Contains(lower, b)
  }

  /** The keyword groups, in the order the router tests them; 5 is "none". */
  function Group(message: string): (g: nat)
    ensures g <= 5
  {
    var m := Lower(message);
    if Mentions(m, "gulay", "vegetable") then 0
    else if Mentions(m, "presyo", "price") then 1
    else if Mentions(m, "delivery", "tracking") then 2
    else if Mentions(m, "loyalty", "points") then 3
    else if Mentions(m, "vendor", "tindahan") then 4
    else 5
  }

  /** The canned reply of each group. */
  function GroupReply(g: nat): string
    requires g <= 5
  {
    if g == 0 then VegetableReply
    else if g == 1 then PriceReply
    else if g == 2 then DeliveryReply
    else if g == 3 then LoyaltyReply
    else if g == 4 then VendorReply
    else DefaultReply
  }

  /** `sendMessageToAI(userMessage)`: the reply of the first keyword group the message mentions. */
  function Reply(message: string): (r: string)
    ensures r == GroupReply(Group(message))
    ensures Mentions(Lower(message), "gulay", "vegetable") ==> r == VegetableReply
    ensures !Mentions(Lower(message), "gulay", "vegetable") && Mentions(Lower(message), "presyo", "price") ==> r == PriceReply
  {
    var m := Lower(message);
    if Mentions(m, "gulay", "vegetable") then VegetableReply
    else if Mentions(m, "presyo", "price") then PriceReply
    else if Mentions(m, "delivery", "tracking") then DeliveryReply
    else if Mentions(m, "loyalty", "points") then LoyaltyReply
    else if Mentions(m, "vendor", "tindahan") then VendorReply
    else DefaultReply
  }

  /**
   * Earlier groups win: a message that names a price and gulay
   * ("price ng gulay?") gets the vegetable reply, not the price reply.
   */
  lemma VegetablesBeforePrices(message: string)
    requires Mentions(Lower(message), "presyo", "price")
    requires Mentions(Lower(message), "gulay", "vegetable")
    ensures Group(message) == 0 && Reply(message) == VegetableReply
  {
  }

  /** Case does not matter: a message and its upper-cased form get the same reply. */
  lemma ReplyIgnoresCase(message: string)
    ensures Reply(Upper(message)) == Reply(message)
  {
    LowerOfUpper(message);
  }

  /** `useTinderaChat()`'s state. */
  class Chat {
    var messages: seq<Message>
    var isLoading: bool
    /** The messages whose replies are still due, oldest first. */
    var pending: seq<string>

    constructor()
      ensures messages == Initial && !isLoading && pending == []
    {
      messages := Initial;
      isLoading := false;
      pending := [];
    }

    /** `addMessage(content)` up to the `await`: append the user's message as typed and show loading. */
    method Send(content: string, now: nat)
      modifies this
      ensures messages == old(messages) + [Message(Decimal(now), UserRole, content)]
      ensures isLoading
      ensures pending == old(pending) + [content]
    {
      messages := messages + [Message(Decimal(now), UserRole, content)];
      isLoading := true;
      pending := pending + [content];
    }

    /** The oldest outstanding reply arrives: append it and turn loading off (`finally`). */
    method ReplyArrives(now: nat)
      requires pending != []
      modifies this
      ensures messages == old(messages) + [Message(Decimal(now + 1), Assistant, Reply(old(pending)[0]))]
      ensures !isLoading
      ensures pending == old(pending)[1..]
    {
      var content := pending[0];
      messages := messages + [Message(Decimal(now + 1), Assistant, Reply(content))];
      pending := pending[1..];
      isLoading := false;
    }

    /** One whole `addMessage` with nothing else outstanding: the list grows by the message and one reply. */
    method AddMessage(content: string, sentAt: nat, repliedAt: nat)
      requires pending == []
      modifies this
      ensures |messages| == |old(messages)| + 2
      ensures messages[|messages| - 2] == Message(Decimal(sentAt), UserRole, content)
      ensures messages[|messages| - 1] == Message(Decimal(repliedAt + 1), Assistant, Reply(content))
      ensures messages[..|old(messages)|] == old(messages)
      ensures !isLoading && pending == []
    {
      Send(content, sentAt);
      ReplyArrives(repliedAt);
    }

    /** `clearMessages()`: back to the greeting alone; a reply still due is appended after it later. */
    method ClearMessages()
      modifies this
      ensures messages == Initial
      ensures isLoading == old(isLoading) && pending == old(pending)
    {
      messages := Initial;
    }
  }
}
