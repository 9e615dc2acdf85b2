/** The token shop: the three packages and what their tokens buy. */
module Tokens {
  import opened Wrappers

  /** Tokens one sent chat message costs. */
  const MessageCost := 2
  /** Tokens one minute of a voice call costs. */
  const CallMinuteCost := 5

  datatype TokenPackage = TokenPackage(
    id: string,
    name: string,
    tokens: nat,
    price: nat,
    popular: bool,
    color: string,
    bonus: Option<string>)

  /**
   * The packages, in display order: 50, 150 and 500 tokens at 99, 249 and
   * 699 rupees; the middle one, and only it, is marked popular.
   */
  function Packages(): (packages: seq<TokenPackage>)
    ensures |packages| == 3
    ensures packages[0].id == "starter" && packages[1].id == "popular" && packages[2].id == "premium"
    ensures packages[0].tokens == 50 && packages[1].tokens == 150 && packages[2].tokens == 500
    ensures packages[0].price == 99 && packages[1].price == 249 && packages[2].price == 699
    ensures forall i :: 0 <= i < |packages| ==> (packages[i].popular <==> i == 1)
  {
    [
      TokenPackage("starter", "Starter Pack", 50, 99, false, "from-blue-500 to-cyan-500", None),
      TokenPackage("popular", "Popular Pack", 150, 249, true, "from-primary to-secondary", Some("+20 bonus tokens")),
      TokenPackage("premium", "Premium Pack", 500, 699, false, "from-amber-500 to-orange-500", Some("+100 bonus tokens"))
    ]
  }

  /** `Math.floor(tokens / 2)`: the most messages `tokens` pays for. */
  function MessagesFor(tokens: nat): (messages: nat)
    ensures messages * MessageCost <= tokens < (messages + 1) * MessageCost
  {
    tokens / 2
  }

  /** `Math.floor(tokens / 5)`: the most call minutes `tokens` pays for. */
  function MinutesFor(tokens: nat): (minutes: nat)
    ensures minutes * CallMinuteCost <= tokens < (minutes + 1) * CallMinuteCost
  {
    tokens / 5
  }

  /** The figures a package card shows. */
  datatype Figures = Figures(price: nat, tokens: nat, messages: nat, minutes: nat)

  function CardFigures(p: TokenPackage): Figures {
    Figures(p.price, p.tokens, MessagesFor(p.tokens), MinutesFor(p.tokens))
  }

  /** The bonus text is shown on the card but changes none of its figures. */
  lemma BonusIsDisplayOnly(p: TokenPackage, bonus: Option<string>)
    ensures CardFigures(p.(bonus := bonus)) == CardFigures(p)
  {
  }

  /** The cards show 25/75/250 messages and 10/30/100 call minutes. */
  lemma PackageFigures()
    ensures CardFigures(Packages()[0]) == Figures(99, 50, 25, 10)
    ensures CardFigures(Packages()[1]) == Figures(249, 150, 75, 30)
    ensures CardFigures(Packages()[2]) == Figures(699, 500, 250, 100)
  {
  }

  datatype Notice = Notice(title: string, description: string)

  /**
   * `handlePurchase`: no payment is made; it only announces that payment is
   * coming. It modifies nothing, so no balance and no package changes.
   */
  method HandlePurchase(packageId: string, price: nat) returns (notice: Notice)
    ensures notice.title == "Payment Coming Soon"
  {
    notice := Notice("Payment Coming Soon", "Razorpay integration will be added next. Stay tuned!");
  }
}
