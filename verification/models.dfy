/** The records the backend returns, and the identity rules Swift derives
    from them (`Identifiable.id`, and `Prompt`'s hand-written `==` and `hash`). */
module Models {
  import opened Wrappers

  /** One AI-generated reply; its list identity is its text. */
  datatype GeneratedReply = GeneratedReply(text: string, tone: string) {
    function Id(): string { text }
  }

  /** A past reply-generation request with its replies. */
  datatype HistoryItem = HistoryItem(
    replyId: string,
    originalMessage: string,
    generatedReplies: seq<GeneratedReply>,
    platform: string,
    detectedIntent: Option<string>,
    isFavorite: Option<bool>,
    favoriteTones: Option<seq<string>>,
    selectedReply: Option<string>,
    createdAt: string)
  {
    function Id(): string { replyId }
  }

  /** A post waiting on the backend scheduler. Dates stay as the backend's text. */
  datatype ScheduledPost = ScheduledPost(
    postId: string,
    content: string,
    platform: string,
    scheduledFor: string,
    status: string,
    topic: Option<string>,
    hashtags: Option<seq<string>>,
    tone: Option<string>,
    createdAt: string)
  {
    function Id(): string { postId }
  }

  /** A content-creation task on the rolling calendar. */
  datatype CalendarTask = CalendarTask(
    taskId: string,
    title: string,
    description: Option<string>,
    taskType: string,
    platform: Option<string>,
    templateContent: Option<string>,
    promptId: Option<string>,
    mood: Option<string>,
    scheduledDate: string,
    originalDate: string,
    dayNumber: Option<int>,
    isCompleted: bool,
    completedAt: Option<string>,
    generatedContent: Option<string>,
    createdAt: Option<string>)
  {
    function Id(): string { taskId }
  }

  /** A generation prompt style offered by the backend. */
  datatype Prompt = Prompt(
    promptId: string,
    name: string,
    description: Option<string>,
    model: string,
    supportsMood: bool,
    moodOptions: Option<seq<string>>,
    isDefault: bool,
    testScore: Option<real>)
  {
    function Id(): string { promptId }
  }

  /** The body of a structured backend error. */
  datatype ErrorResponse = ErrorResponse(error: string)

  /** The signed-in account. */
  datatype User = User(userId: string, email: string, name: Option<string>)

  /** What login and signup return. */
  datatype AuthResponse = AuthResponse(accessToken: string, refreshToken: string, user: User)

  /** Swift `==` on prompts: only the ids are compared. */
  predicate PromptEq(a: Prompt, b: Prompt) {
    a.promptId == b.promptId
  }

  /** Swift `hash(into:)` on prompts feeds only the id to the hasher, which is
      given here as the hash function the process happens to use. */
  function PromptHash(p: Prompt, hasher: string -> int): int {
    hasher(p.promptId)
  }

  /** Prompt equality is an equivalence that looks at nothing but the id:
      prompts that share an id are equal whatever their other fields. */
  lemma PromptEqIsIdEquality(a: Prompt, b: Prompt, c: Prompt)
    ensures PromptEq(a, a)
    ensures PromptEq(a, b) <==> PromptEq(b, a)
    ensures PromptEq(a, b) && PromptEq(b, c) ==> PromptEq(a, c)
    ensures PromptEq(a, b) <==> a.Id() == b.Id()
    ensures a.promptId == b.promptId ==> PromptEq(a, b)
  {
  }

  /** Equal prompts hash equally, so `Set<Prompt>` and `Hashable` agree. */
  lemma PromptHashRespectsEq(a: Prompt, b: Prompt, hasher: string -> int)
    requires PromptEq(a, b)
    ensures PromptHash(a, hasher) == PromptHash(b, hasher)
  {
  }

  /** Two prompts differing in every field but the id are still equal. */
  lemma PromptEqIgnoresContent(p: Prompt, name: string, isDefault: bool, model: string)
    ensures PromptEq(p, p.(name := name, isDefault := isDefault, model := model))
    ensures p.(name := name) != p ==> PromptEq(p, p.(name := name))
  {
  }

  /** A history record's and a scheduled post's id is the one field it is
      derived from, so records that agree on that field collide as list
      identities whatever their content. */
  lemma IdsComeFromOneField(p: ScheduledPost, h: HistoryItem, content: string, msg: string)
    ensures p.Id() == p.postId && p.(content := content).Id() == p.Id()
    ensures h.Id() == h.replyId && h.(originalMessage := msg).Id() == h.Id()
  {
  }

  /** A calendar task's id is its `task_id`, whatever its title or state. */
  lemma TaskIdIsTaskId(t: CalendarTask, title: string, done: bool)
    ensures t.Id() == t.taskId && t.(title := title, isCompleted := done).Id() == t.Id()
  {
  }

  /** Two replies with the same text but different tones share an id. */
  lemma ReplyIdIsText(a: GeneratedReply, b: GeneratedReply)
    ensures a.Id() == b.Id() <==> a.text == b.text
  {
  }
}
