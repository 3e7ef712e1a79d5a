/** The records the GraphQL services return to the view-models. */
module Dto {
  import opened Wrappers

  datatype OAuthCredentials = OAuthCredentials(accessToken: string, refreshToken: string)

  datatype Contact = Contact(
    id: string,
    name: string,
    surname1: Option<string>,
    surname2: Option<string>,
    email: Option<string>,
    phone: Option<string>,
    createdAt: string)

  datatype ContactsPagination = ContactsPagination(total: int, rows: seq<Contact>, count: int)
}
