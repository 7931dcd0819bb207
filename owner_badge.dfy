/**
 * `OwnerBadge`: the three texts shown for the owner of a foreign file list,
 * with dashes standing in for what is unknown.
 */
module OwnerBadge {
  import opened Types
  import opened JsString

  datatype OwnerInfo = OwnerInfo(id: int, username: string, full_name: string, email: string)

  /** The e-mail row: a `mailto:` link, or a dash placeholder. */
  datatype EmailCell = MailtoLink(href: string, text: string) | EmailPlaceholder

  datatype BadgeView = BadgeView(username: string, fullName: string, email: EmailCell)

  const Dash: string := "—"
  const IdPrefix: string := "id: "
  const MailtoScheme: string := "mailto:"

  /** The texts derived from the `owner` and `userId` props. */
  function Badge(owner: Option<OwnerInfo>, userId: Option<int>): (v: BadgeView)
    ensures owner.Some? ==> v.username == owner.value.username && v.fullName == owner.value.full_name
    ensures owner.None? ==> v.fullName == Dash
    ensures owner.None? && userId.Some? ==> v.username == IdPrefix + Decimal(userId.value)
    ensures owner.None? && userId.None? ==> v.username == Dash
  {
    var username := if owner.Some? then owner.value.username
                    else if userId.Some? then IdPrefix + Decimal(userId.value) else Dash;
    var fullName := if owner.Some? then owner.value.full_name else Dash;
    var email := if owner.Some? then Some(owner.value.email) else None;
    BadgeView(username, fullName, EmailRow(email))
  }

  /** `{email ? <a href={`mailto:${email}`}> : <span>—</span>}`: an empty string is falsy. */
  function EmailRow(email: Option<string>): (c: EmailCell)
    ensures c.MailtoLink? <==> email.Some? && email.value != ""
  {
    if email.Some? && email.value != "" then MailtoLink(MailtoScheme + email.value, email.value)
    else EmailPlaceholder
  }

  /** A link is shown exactly when the owner has a non-empty address, and its target is that address. */
  lemma EmailLinkTarget(owner: Option<OwnerInfo>, userId: Option<int>)
    ensures var c := Badge(owner, userId).email;
            c.MailtoLink? <==> owner.Some? && owner.value.email != ""
    ensures var c := Badge(owner, userId).email;
            c.MailtoLink? ==>
              && c.text == owner.value.email
              && c.href[..|MailtoScheme|] == MailtoScheme
              && c.href[|MailtoScheme|..] == c.text
  {
  }

  /** Without an owner record, distinct ids yield distinct user names, and none of them is the dash. */
  lemma FallbackNamesDistinct(a: int, b: int)
    requires a != b
    ensures Badge(None, Some(a)).username != Badge(None, Some(b)).username
    ensures Badge(None, Some(a)).username != Dash
  {
    var ua, ub := IdPrefix + Decimal(a), IdPrefix + Decimal(b);
    if ua == ub {
      assert Decimal(a) == ua[|IdPrefix|..] && Decimal(b) == ub[|IdPrefix|..];
      DecimalInjective(a, b);
    }
    assert |ua| > |Dash|;
  }
}
