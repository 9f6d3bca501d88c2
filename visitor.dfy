/** `Visitor` (Models/Visitor.swift): one sign-in record. */
module Visitors {
  import opened Common

  /** The immutable `id` and the editable sign-in fields; `signedAt` and the PNG bytes are optional. */
  datatype Visitor = Visitor(
    id: Uuid,
    fullName: string,
    email: string,
    phone: string,
    hasAgent: bool,
    agentName: string,
    agentEmail: string,
    agentPhone: string,
    agreedToDisclosure: bool,
    signedAt: Option<Date>,
    signatureImagePNGData: Option<Bytes>)

  /**
   * The memberwise initializer with its defaults. `UUID()` draws a random id, so the id is
   * always supplied here.
   */
  function MakeVisitor(
    id: Uuid,
    fullName: string := "",
    email: string := "",
    phone: string := "",
    hasAgent: bool := false,
    agentName: string := "",
    agentEmail: string := "",
    agentPhone: string := "",
    agreedToDisclosure: bool := false,
    signedAt: Option<Date> := None,
    signatureImagePNGData: Option<Bytes> := None): (v: Visitor)
    ensures v.id == id && v.fullName == fullName && v.email == email && v.phone == phone
    ensures v.hasAgent == hasAgent && v.agentName == agentName && v.agentEmail == agentEmail
    ensures v.agentPhone == agentPhone && v.agreedToDisclosure == agreedToDisclosure
    ensures v.signedAt == signedAt && v.signatureImagePNGData == signatureImagePNGData
  {
    Visitor(id, fullName, email, phone, hasAgent, agentName, agentEmail, agentPhone,
            agreedToDisclosure, signedAt, signatureImagePNGData)
  }

  /** `Visitor()`: empty strings, no agent, no agreement, not signed. */
  predicate IsDefault(v: Visitor)
  {
    v.fullName == "" && v.email == "" && v.phone == "" && v.agentName == ""
    && v.agentEmail == "" && v.agentPhone == "" && !v.hasAgent && !v.agreedToDisclosure
    && v.signedAt == None && v.signatureImagePNGData == None
  }

  /** The initializer called with nothing but an id gives the default record. */
  lemma DefaultVisitor(id: Uuid)
    ensures IsDefault(MakeVisitor(id)) && MakeVisitor(id).id == id
  {
  }

  /** Two default records differ at most in their ids. */
  lemma DefaultsDifferOnlyInId(a: Visitor, b: Visitor)
    requires IsDefault(a) && IsDefault(b)
    ensures a == b <==> a.id == b.id
  {
  }
}
