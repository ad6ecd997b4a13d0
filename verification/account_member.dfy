/**
 * The account member resource: its import-ID parser
 * (`<account_id>,email/<email>`), the rule that a refresh needs exactly one
 * member with the email, and a Create that always fails.
 */
module AccountMember {
  import opened Wrappers
  import opened Text
  import opened Framework

  const InvalidImport := "Invalid import ID"
  const EmailPrefix := "email/"

  /** What the account member's `ImportState` records for an import ID. */
  function AccountMemberImportOutcome(id: string): Outcome
  {
    var parts := Split(id, ',');
    if |parts| != 2 then Outcome(map[], Some(InvalidImport))
    else Outcome(map["account_id" := parts[0], "email" := TrimPrefix(parts[1], EmailPrefix)], None)
  }

  /** `AccountMemberResource.ImportState`. */
  method ImportAccountMember(resp: Response, id: string)
    modifies resp
    ensures var o := AccountMemberImportOutcome(id);
      resp.state == old(resp.state) + o.attrs && resp.errors == old(resp.errors) + ErrorsOf(o.error)
  {
    var parts := Split(id, ',');
    if |parts| != 2 {
      resp.AddError(InvalidImport);
      return;
    }
    resp.SetAttribute("account_id", parts[0]);
    resp.SetAttribute("email", TrimPrefix(parts[1], EmailPrefix));
  }

  /** Both `account,email/address` and `account,address` import the address,
      provided the address itself does not start with `email/`. */
  lemma AccountMemberImportForms(account: string, address: string)
    requires ',' !in account && ',' !in address
    ensures AccountMemberImportOutcome(account + "," + EmailPrefix + address)
      == Outcome(map["account_id" := account, "email" := address], None)
    ensures !HasPrefix(address, EmailPrefix) ==>
      AccountMemberImportOutcome(account + "," + address) == Outcome(map["account_id" := account, "email" := address], None)
  {
    assert ',' !in EmailPrefix + address;
    TwoParts(account, EmailPrefix + address, ',');
    assert account + "," + EmailPrefix + address == account + [','] + (EmailPrefix + address);
    TrimPrefixAfterPrefix(EmailPrefix, address);
    TwoParts(account, address, ',');
  }

  /** Anything but exactly two parts is refused, and nothing is set. */
  lemma AccountMemberImportNeedsTwoParts(id: string)
    ensures AccountMemberImportOutcome(id).error.None? <==> |Split(id, ',')| == 2
    ensures AccountMemberImportOutcome(id).error.Some? ==> AccountMemberImportOutcome(id).attrs == map[]
  {
  }

  /** An account member as listed by the API. */
  datatype Member = Member(id: string, email: string, handle: string)

  const MemberNotFound := "Could not find Account Member"

  /** The check in `Read`: the listing by email must hold exactly one member,
      which is then the refreshed member. */
  function SingleMatch(members: seq<Member>): (r: Result<Member>)
    ensures r.Ok? <==> |members| == 1
    ensures r.Ok? ==> r.value == members[0] && r.value in members
    ensures r.Err? ==> r.message == MemberNotFound
  {
    if |members| != 1 then Err(MemberNotFound) else Ok(members[0])
  }

  const NotImplemented := "Not implemented"

  /** `AccountMemberResource.Create` reports an error and sets no state. */
  method CreateAccountMember(resp: Response)
    modifies resp
    ensures resp.state == old(resp.state) && resp.errors == old(resp.errors) + [NotImplemented]
  {
    resp.AddError(NotImplemented);
  }
}
