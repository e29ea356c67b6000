/** The displayed message list: how `appendMessage` renders a stored message and
    what the chat title shows. */
module Messages {
  import opened Wrappers

  /** The two bubble styles a message node can carry. */
  datatype Author = User | Ai

  /** One entry of the displayed message list, in display order. */
  datatype Message = Message(author: Author, text: string)

  /** A message as the thread-history endpoint returns it: a `type` string and a
      possibly absent `content`. */
  datatype StoredMessage = StoredMessage(kind: string, content: Option<string>)

  /** The placeholder title of a thread without a name, and of a draft chat. */
  const NewChatTitle := "New Chat"

  /** The bubble style `appendMessage` picks for a stored `type`. */
  function AuthorOf(kind: string): (a: Author)
    ensures a == User <==> kind == "human" || kind == "user"
  {
    if kind == "human" || kind == "user" then User else Ai
  }

  /** `appendMessage`: the style from the type, the text from the content, and an
      absent or empty content shown as an empty bubble. */
  function Render(m: StoredMessage): (r: Message)
    ensures r.author == AuthorOf(m.kind)
    ensures r.text == m.content.GetOr("")
  {
    Message(AuthorOf(m.kind), m.content.GetOr(""))
  }

  /** The history replay `messages.forEach((m) => appendMessage(m))`: one rendered
      entry per stored message, in the stored order. */
  function RenderAll(h: seq<StoredMessage>): (r: seq<Message>)
    ensures |r| == |h|
    ensures forall i :: 0 <= i < |h| ==> r[i] == Render(h[i])
  {
    if h == [] then [] else [Render(h[0])] + RenderAll(h[1..])
  }

  /** `chatName || "New Chat"`: JavaScript's `||` also falls back on the empty string. */
  function TitleFor(name: Option<string>): (t: string)
    ensures t != ""
    ensures name.Some? && name.value != "" ==> t == name.value
    ensures name.None? || name.value == "" ==> t == NewChatTitle
  {
    match name
    case Some(n) => if n != "" then n else NewChatTitle
    case None => NewChatTitle
  }
}
