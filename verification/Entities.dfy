/** The entities a service loads and changes in place (internal/domain): their
    Transition methods move status, version and approver together, or nothing. */
module Entities {
  import opened Domain

  class CaseEntity {
    const claimant: Id
    var status: CaseStatus
    var version: int

    function Row(): EstateCase reads this { EstateCase(claimant, status, version) }

    constructor (row: EstateCase)
      ensures Row() == row
    {
      claimant, status, version := row.claimant, row.status, row.version;
    }

    method Transition(to: CaseStatus) returns (r: Result<()>)
      modifies this
      ensures var o := old(Row()).Transition(to);
              if o.Ok? then r == Ok(()) && Row() == o.value else r == Err(InvalidState) && Row() == old(Row())
    {
      if !status.CanTransition(to) { return Err(InvalidState); }
      status := to;
      version := version + 1;
      r := Ok(());
    }
  }

  class InquiryEntity {
    const caseId: Id
    const institution: Id
    const requestKey: string
    const expectedParts: int
    var status: InquiryStatus
    var externalRef: string
    var receivedParts: int
    var version: int

    function Row(): Inquiry reads this {
      Inquiry(caseId, institution, requestKey, status, externalRef, expectedParts, receivedParts, version)
    }

    constructor (row: Inquiry)
      ensures Row() == row
    {
      caseId, institution, requestKey, expectedParts := row.caseId, row.institution, row.requestKey, row.expectedParts;
      status, externalRef, receivedParts, version := row.status, row.externalRef, row.receivedParts, row.version;
    }

    method Transition(to: InquiryStatus) returns (r: Result<()>)
      modifies this
      ensures var o := old(Row()).Transition(to);
              if o.Ok? then r == Ok(()) && Row() == o.value else r == Err(InvalidState) && Row() == old(Row())
    {
      if !status.CanTransition(to) { return Err(InvalidState); }
      status := to;
      version := version + 1;
      r := Ok(());
    }
  }

  class ClaimEntity {
    const caseId: Id
    const claimant: Id
    const total: int
    const currency: string
    var status: ClaimStatus
    var version: int
    var approvedBy: Id

    function Row(): Claim reads this { Claim(caseId, claimant, status, total, currency, version, approvedBy) }

    constructor (row: Claim)
      ensures Row() == row
    {
      caseId, claimant, total, currency := row.caseId, row.claimant, row.total, row.currency;
      status, version, approvedBy := row.status, row.version, row.approvedBy;
    }

    method Transition(to: ClaimStatus, actor: Id) returns (r: Result<()>)
      modifies this
      ensures var o := old(Row()).Transition(to, actor);
              if o.Ok? then r == Ok(()) && Row() == o.value else r == Err(InvalidState) && Row() == old(Row())
    {
      if !status.CanTransition(to) { return Err(InvalidState); }
      status := to;
      version := version + 1;
      if to == ClaimApproved {
        approvedBy := actor;
      }
      r := Ok(());
    }
  }
}
