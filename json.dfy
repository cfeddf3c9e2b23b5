/**
 * The shape of a JSON value as encoding/json produces it. Objects are finite
 * maps from member name to value: the model fixes which members are present
 * and what they hold, not the bytes, escaping or member order. Member names
 * are the closed set the step's types use, each with its name on the wire.
 */
module Json {

  /** The member names that occur in the step's JSON. */
  datatype Key =
    | Channel | Text | Attachments | IconEmoji | IconUrl | LinkNames | Username
    | ThreadTs | Ts | ReplyBroadcast
    | Fallback | Color | Pretext | AuthorName | Title | TitleLink | Fields
    | ImageUrl | ThumbUrl | Footer | FooterIcon | Actions
    | Value | Short | Type | Url | Style

  /** The name a member is written with. */
  function Name(k: Key): string {
    match k
    case Channel => "channel"
    case Text => "text"
    case Attachments => "attachments"
    case IconEmoji => "icon_emoji"
    case IconUrl => "icon_url"
    case LinkNames => "link_names"
    case Username => "username"
    case ThreadTs => "thread_ts"
    case Ts => "ts"
    case ReplyBroadcast => "reply_broadcast"
    case Fallback => "fallback"
    case Color => "color"
    case Pretext => "pretext"
    case AuthorName => "author_name"
    case Title => "title"
    case TitleLink => "title_link"
    case Fields => "fields"
    case ImageUrl => "image_url"
    case ThumbUrl => "thumb_url"
    case Footer => "footer"
    case FooterIcon => "footer_icon"
    case Actions => "actions"
    case Value => "value"
    case Short => "short"
    case Type => "type"
    case Url => "url"
    case Style => "style"
  }

  datatype Json =
    | JNull
    | JBool(b: bool)
    | JInt(i: int)
    | JString(s: string)
    | JArray(items: seq<Json>)
    | JObject(members: map<Key, Json>)

  /** The string member k of an object, or "" when it is absent or not a string. */
  function StringAt(m: map<Key, Json>, k: Key): string {
    if k in m && m[k].JString? then m[k].s else ""
  }

  /** The boolean member k of an object, or false when it is absent or not a boolean. */
  function BoolAt(m: map<Key, Json>, k: Key): bool {
    if k in m && m[k].JBool? then m[k].b else false
  }

  /** The integer member k of an object, or 0 when it is absent or not an integer. */
  function IntAt(m: map<Key, Json>, k: Key): int {
    if k in m && m[k].JInt? then m[k].i else 0
  }

  /** The array member k of an object, or [] when it is absent or not an array. */
  function ArrayAt(m: map<Key, Json>, k: Key): seq<Json> {
    if k in m && m[k].JArray? then m[k].items else []
  }

  /** The members of an object value, or none for any other value. */
  function MembersOf(j: Json): map<Key, Json> {
    if j.JObject? then j.members else map[]
  }

  /** Distinct members are written with distinct names. */
  lemma NamesDistinct(a: Key, b: Key)
    ensures Name(a) == Name(b) <==> a == b
  {
  }
}
