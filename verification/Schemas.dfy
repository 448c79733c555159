/** The normalized social event. Ids, avatars and timestamps play no part in any decision and are omitted;
    `id` stays, because it is what tells two otherwise equal events apart. */
module Schemas {
  import opened Wrappers

  datatype Kind = Comment | Gift | Like | Follow | Share

  datatype SocialEvent = SocialEvent(
    id: string,
    kind: Kind,
    userId: string,
    userName: string,
    text: Option<string>,
    giftValue: Option<int>)
}
