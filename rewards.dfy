/**
  The rewards store: the fixed catalogue, the redeem handler (which only
  shows a toast) and the redeem button's disabled state, variant and label.
*/
module Rewards {
  import opened Wrappers
  import opened Auth
  import opened Toasts
  import Js

  datatype Reward = Reward(id: int, title: string, description: string, points: int,
                           category: string, available: bool)

  const Catalogue: seq<Reward> := [
    Reward(1, "Free Coffee", "Get a free coffee from the campus café", 50, "Food & Drink", true),
    Reward(2, "Library Late Fee Waiver", "Waive one library late fee (up to $10)", 75, "Academic", true),
    Reward(3, "Campus Event Ticket", "Free ticket to select campus events", 100, "Entertainment", true),
    Reward(4, "Eco-Friendly Tote Bag", "Reusable campus-branded tote bag", 150, "Merchandise", true),
    Reward(5, "Priority Parking Spot", "1-day reserved parking spot near campus center", 200, "Premium", false),
    Reward(6, "Campus Store Voucher", "$10 voucher for the campus bookstore", 250, "Shopping", true)
  ]

  /** Where the redeem handler stops. */
  datatype Redemption = Ignored | NotEnoughPoints(shortfall: nat) | OutOfStock | Redeemed(title: string)

  /**
    `handleRedeem`: nothing without a profile; then the points check; then the
    stock check; then success. No points are deducted and nothing is stored.
  */
  function HandleRedeem(profile: Option<Profile>, reward: Reward): (r: Redemption)
    ensures profile.None? <==> r == Ignored
    ensures r.NotEnoughPoints? <==> profile.Some? && profile.value.points < reward.points
    ensures r.NotEnoughPoints? ==> r.shortfall == reward.points - profile.value.points > 0
    ensures r == OutOfStock <==> profile.Some? && profile.value.points >= reward.points && !reward.available
    ensures r.Redeemed? <==> profile.Some? && profile.value.points >= reward.points && reward.available
    ensures r.Redeemed? ==> r.title == reward.title
  {
    if profile.None? then Ignored
    else if profile.value.points < reward.points then NotEnoughPoints(reward.points - profile.value.points)
    else if !reward.available then OutOfStock
    else Redeemed(reward.title)
  }

  /** The toast each outcome shows; only success is not destructive. */
  function RedeemToast(r: Redemption): (t: Option<Toast>)
    ensures t.None? <==> r == Ignored
    ensures t.Some? ==> (t.value.destructive <==> !r.Redeemed?)
    ensures r.NotEnoughPoints? ==> t.value.title == "Not enough points"
    ensures r == OutOfStock ==> t.value.title == "Reward unavailable"
    ensures r.Redeemed? ==> t.value.title == "Reward redeemed!"
  {
    match r
    case Ignored => None
    case NotEnoughPoints(n) =>
      Some(Toast("Not enough points", "You need " + Js.Decimal(n) + " more points to redeem this reward.", true))
    case OutOfStock =>
      Some(Toast("Reward unavailable", "This reward is currently out of stock.", true))
    case Redeemed(title) =>
      Some(Toast("Reward redeemed!", "You've successfully redeemed " + title + ". Check your email for details.", false))
  }

  /** `profile?.points || 0`: a missing profile counts as no points. */
  function Balance(profile: Option<Profile>): (b: int)
    ensures profile.None? ==> b == 0
    ensures profile.Some? ==> b == profile.value.points
  {
    if profile.Some? then profile.value.points else 0
  }

  /** `disabled={!reward.available || (profile?.points || 0) < reward.points}`. */
  function ButtonDisabled(profile: Option<Profile>, reward: Reward): (d: bool)
    ensures profile.Some? ==> (d <==> !HandleRedeem(profile, reward).Redeemed?)
    ensures profile.None? ==> (d <==> !reward.available || reward.points > 0)
  {
    !reward.available || Balance(profile) < reward.points
  }

  /** The button variant: `default` when it can be pressed, `outline` otherwise. */
  function ButtonVariant(profile: Option<Profile>, reward: Reward): (v: string)
    ensures v == "default" <==> !ButtonDisabled(profile, reward)
    ensures v == "default" || v == "outline"
  {
    if reward.available && Balance(profile) >= reward.points then "default" else "outline"
  }

  /** The button text: being out of stock is reported before missing points. */
  function ButtonLabel(profile: Option<Profile>, reward: Reward): (l: string)
    ensures !reward.available ==> l == "Out of Stock"
    ensures reward.available && Balance(profile) < reward.points ==> l == "Not Enough Points"
    ensures l == "Redeem" <==> !ButtonDisabled(profile, reward)
  {
    if !reward.available then "Out of Stock"
    else if Balance(profile) < reward.points then "Not Enough Points"
    else "Redeem"
  }

  /** With a profile, the handler succeeds exactly when the button is enabled. */
  lemma HandlerAgreesWithButton(profile: Profile, reward: Reward)
    ensures HandleRedeem(Some(profile), reward).Redeemed? <==> !ButtonDisabled(Some(profile), reward)
    ensures HandleRedeem(Some(profile), reward).Redeemed? <==> ButtonLabel(Some(profile), reward) == "Redeem"
  {
  }

  /**
    The handler checks points before stock, the label checks stock before
    points: calling the handler on an unaffordable reward that is out of stock
    reports the shortfall, while the label reads "Out of Stock". The page
    disables that button, so the call is not reachable by a click.
  */
  lemma PointsBeforeStock(profile: Profile, reward: Reward)
    requires profile.points < reward.points && !reward.available
    ensures HandleRedeem(Some(profile), reward) == NotEnoughPoints(reward.points - profile.points)
    ensures ButtonLabel(Some(profile), reward) == "Out of Stock"
  {
  }

  /** The shortfall toast prints the missing points in decimal. */
  lemma ShortfallMessage(profile: Profile, reward: Reward)
    requires profile.points < reward.points
    ensures var t := RedeemToast(HandleRedeem(Some(profile), reward)).value;
      t.description == "You need " + Js.Decimal(reward.points - profile.points) + " more points to redeem this reward."
  {
    assert HandleRedeem(Some(profile), reward) == NotEnoughPoints(reward.points - profile.points);
  }

  /** The success toast names the redeemed reward. */
  lemma RedeemedToastNamesReward(profile: Profile, reward: Reward)
    requires reward.available && profile.points >= reward.points
    ensures var t := RedeemToast(HandleRedeem(Some(profile), reward)).value;
      && !t.destructive && t.title == "Reward redeemed!"
      && t.description == "You've successfully redeemed " + reward.title + ". Check your email for details."
  {
    assert HandleRedeem(Some(profile), reward) == Redeemed(reward.title);
  }

  /** Without a profile every catalogue button is disabled: every reward costs points. */
  lemma NoProfileAllDisabled()
    ensures forall i :: 0 <= i < |Catalogue| ==> ButtonDisabled(None, Catalogue[i])
  {
  }

  /** Only the parking spot is out of stock. */
  lemma CatalogueStock()
    ensures forall i :: 0 <= i < |Catalogue| ==> (Catalogue[i].available <==> Catalogue[i].id != 5)
  {
  }
}
