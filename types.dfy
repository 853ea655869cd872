/** The record shapes of lib/types.ts. Optional properties are `Option`s. */
module Types {
  import opened Wrappers

  datatype IdName = IdName(id: string, name: string)

  datatype Access = Access(source: string, message: string)

  /** `tokens`: `expiresAt` is a Unix time in milliseconds. */
  datatype SessionTokens = SessionTokens(
    idToken: string,
    accessToken: Option<string>,
    refreshToken: Option<string>,
    expiresAt: Option<int>)

  /** `attributes`: `numeroDocumento` is `numero_documento`, `nid` the identity
      level and `idp` the identity provider. */
  datatype Attributes = Attributes(
    numeroDocumento: Option<string>,
    email: Option<string>,
    nid: Option<string>,
    issuer: Option<string>,
    idp: Option<string>)

  datatype PortalSession = PortalSession(
    healthUser: IdName,
    healthWorker: IdName,
    clinic: IdName,
    access: Access,
    issuedAt: string,
    tokens: Option<SessionTokens>,
    attributes: Option<Attributes>)

  /** A successful token response; `tokenType` is optional here because the
      source casts the JSON without checking it. */
  datatype TokenResponse = TokenResponse(
    accessToken: Option<string>,
    refreshToken: Option<string>,
    idToken: string,
    tokenType: Option<string>,
    expiresIn: Option<int>,
    scope: Option<string>)

  datatype OpenIdConfiguration = OpenIdConfiguration(
    issuer: string,
    authorizationEndpoint: string,
    tokenEndpoint: string,
    userinfoEndpoint: Option<string>,
    endSessionEndpoint: Option<string>,
    jwksUri: string)

  datatype UserInfo = UserInfo(
    sub: Option<string>,
    uid: Option<string>,
    numeroDocumento: Option<string>,
    nombreCompleto: Option<string>,
    givenName: Option<string>,
    familyName: Option<string>,
    name: Option<string>,
    email: Option<string>,
    nid: Option<string>,
    idp: Option<string>)
}
