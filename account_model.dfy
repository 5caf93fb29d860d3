/**
 * The records of the accounts resource: an account, its attributes, the
 * HATEOAS links of a response and the envelopes that wrap accounts on the wire.
 */
module AccountModel {
  import opened Wrappers

  /** Go's int on a 64-bit platform. */
  newtype int64 = x: int | -0x8000_0000_0000_0000 <= x < 0x8000_0000_0000_0000

  const AccountsPath: string := "/organisation/accounts"

  /** Banking fields of an account; the optional ones are empty strings or false when absent. */
  datatype AccountAttributes = AccountAttributes(
    country: string,
    baseCurrency: string,
    accountNumber: string,
    bankId: string,
    bankIdCode: string,
    bic: string,
    iban: string,
    title: string,
    firstName: string,
    bankAccountName: string,
    alternativeBankAccountNames: seq<string>,
    accountClassification: string,
    jointAccount: bool,
    accountMatchingOptOut: bool,
    secondaryIdentification: string)

  datatype Account = Account(
    attributes: AccountAttributes,
    id: string,
    organisationId: string,
    resourceType: string,
    version: int64)

  /** Navigation links; each may be absent from a response. */
  datatype Links = Links(
    first: Option<string>,
    last: Option<string>,
    next: Option<string>,
    prev: Option<string>,
    self: Option<string>)

  /** The body of a fetch or create response: {data: account, links}. */
  datatype AccountEnvelope = AccountEnvelope(data: Account, links: Links)

  /** The body of a list response: {data: [account...], links}. */
  datatype AccountListEnvelope = AccountListEnvelope(data: seq<Account>, links: Links)

  /** The body of a create request: {data: account}. */
  datatype CreatePayload = CreatePayload(data: Account)
}
