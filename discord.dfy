/** The Discord embeds the integration builds (src/lib/discord.ts): the
    display-name fallback, the truncated description, the status colour and
    the field layout of the three notifications. Posting the payload is not
    part of this model. */
module Discord {
  import opened Wrappers
  import opened Text
  import opened Enums

  /** The `{ display_name?, username? }` shape of a person. */
  datatype Person = Person(display_name: Option<string>, username: Option<string>)

  datatype Field = Field(name: string, value: string, inline: bool)

  /** `DiscordEmbed`; `timestamp` is the ISO text of the sending moment. */
  datatype Embed = Embed(title: string, description: string, color: nat, fields: seq<Field>, timestamp: string)

  /** What `sendWebhook` would receive: `{ embeds: [embed] }`. */
  datatype WebhookPayload = WebhookPayload(embeds: seq<Embed>)

  const Unassigned := "未割り当て"
  const Unknown := "不明"

  const Gray: nat := 0x6b7280
  const Blue: nat := 0x2563eb
  const Yellow: nat := 0xf59e0b
  const Green: nat := 0x10b981

  const CreatedTitle := "🆕 新しいタスクが作成されました"
  const StatusChangedTitle := "📝 タスクのステータスが更新されました"
  const CompletedTitle := "✅ タスクが完了しました"

  /** `p?.display_name || p?.username || fallback`: an empty name falls through. */
  function Name(p: Option<Person>, fallback: string): (r: string)
    ensures p.Some? && Truthy(p.value.display_name) ==> r == p.value.display_name.value
    ensures p.Some? && !Truthy(p.value.display_name) && Truthy(p.value.username) ==> r == p.value.username.value
    ensures p.None? || (!Truthy(p.value.display_name) && !Truthy(p.value.username)) ==> r == fallback
  {
    if p.Some? && Truthy(p.value.display_name) then p.value.display_name.value
    else if p.Some? && Truthy(p.value.username) then p.value.username.value
    else fallback
  }

  /** The 説明 field's value: at most 100 characters, then `...`. */
  function TruncateDescription(d: string): (r: string)
    ensures |r| <= 103
    ensures |d| <= 100 ==> r == d
    ensures |d| > 100 ==> r == d[..100] + "..."
  {
    if |d| > 100 then Prefix(d, 100) + "..." else d
  }

  /** `statusColors[newStatus] || 0x6b7280`. */
  function StatusColor(newStatus: string): (c: nat)
    ensures newStatus == "進行中" ==> c == Blue
    ensures newStatus == "レビュー待ち" ==> c == Yellow
    ensures newStatus == "完了" ==> c == Green
    ensures newStatus !in {"進行中", "レビュー待ち", "完了"} ==> c == Gray
  {
    if newStatus == "未着手" then Gray
    else if newStatus == "進行中" then Blue
    else if newStatus == "レビュー待ち" then Yellow
    else if newStatus == "完了" then Green
    else Gray
  }

  /** `notifyTaskCreated`: three inline fields, then the 説明 field when a
      non-empty description is given. */
  method NotifyTaskCreated(title: string, description: Option<string>, assignee: Option<Person>,
                           reporter: Option<Person>, priority: string, timestamp: string)
    returns (payload: WebhookPayload)
    ensures |payload.embeds| == 1
    ensures payload.embeds[0].title == CreatedTitle && payload.embeds[0].description == title
    ensures payload.embeds[0].color == Blue && payload.embeds[0].timestamp == timestamp
    ensures |payload.embeds[0].fields| == if Truthy(description) then 4 else 3
    ensures payload.embeds[0].fields[..3] == [
      Field("担当者", Name(assignee, Unassigned), true),
      Field("報告者", Name(reporter, Unknown), true),
      Field("優先度", priority, true)]
    ensures Truthy(description) ==>
      payload.embeds[0].fields[3] == Field("説明", TruncateDescription(description.value), false)
  {
    var assigneeName := Name(assignee, Unassigned);
    var reporterName := Name(reporter, Unknown);
    var fields := [
      Field("担当者", assigneeName, true),
      Field("報告者", reporterName, true),
      Field("優先度", priority, true)];
    if description.Some? && description.value != "" {
      fields := fields + [Field("説明", TruncateDescription(description.value), false)];
    }
    var embed := Embed(CreatedTitle, title, Blue, fields, timestamp);
    payload := WebhookPayload([embed]);
  }

  /** `notifyTaskStatusChanged`: the change `old → new`, then the assignee
      and the person who changed it. */
  method NotifyTaskStatusChanged(title: string, oldStatus: string, newStatus: string,
                                 assignee: Option<Person>, changedBy: Option<Person>, timestamp: string)
    returns (payload: WebhookPayload)
    ensures |payload.embeds| == 1
    ensures payload.embeds[0].title == StatusChangedTitle && payload.embeds[0].description == title
    ensures payload.embeds[0].color == StatusColor(newStatus) && payload.embeds[0].timestamp == timestamp
    ensures payload.embeds[0].fields == [
      Field("ステータス変更", oldStatus + " → " + newStatus, true),
      Field("担当者", Name(assignee, Unassigned), true),
      Field("変更者", Name(changedBy, Unknown), true)]
  {
    var assigneeName := Name(assignee, Unassigned);
    var changedByName := Name(changedBy, Unknown);
    var color := StatusColor(newStatus);
    var fields := [
      Field("ステータス変更", oldStatus + " → " + newStatus, true),
      Field("担当者", assigneeName, true),
      Field("変更者", changedByName, true)];
    payload := WebhookPayload([Embed(StatusChangedTitle, title, color, fields, timestamp)]);
  }

  /** `notifyTaskCompleted`: always green, with the assignee and the person
      who completed it. */
  method NotifyTaskCompleted(title: string, assignee: Option<Person>, completedBy: Option<Person>, timestamp: string)
    returns (payload: WebhookPayload)
    ensures |payload.embeds| == 1
    ensures payload.embeds[0].title == CompletedTitle && payload.embeds[0].description == title
    ensures payload.embeds[0].color == Green && payload.embeds[0].timestamp == timestamp
    ensures payload.embeds[0].fields == [
      Field("担当者", Name(assignee, Unassigned), true),
      Field("完了者", Name(completedBy, Unknown), true)]
  {
    var fields := [
      Field("担当者", Name(assignee, Unassigned), true),
      Field("完了者", Name(completedBy, Unknown), true)];
    payload := WebhookPayload([Embed(CompletedTitle, title, Green, fields, timestamp)]);
  }

  /** A name is never empty when the fallback is not, and the fallback is
      used exactly when neither name is usable. */
  lemma NameNeverEmpty(p: Option<Person>, fallback: string)
    requires fallback != ""
    ensures Name(p, fallback) != ""
    ensures Name(p, fallback) == fallback <==>
      p.None? || (!Truthy(p.value.display_name) && !Truthy(p.value.username))
      || (Truthy(p.value.display_name) && p.value.display_name.value == fallback)
      || (!Truthy(p.value.display_name) && Truthy(p.value.username) && p.value.username.value == fallback)
  {
  }

  /** Truncation keeps a prefix of the description and is idempotent on
      what fits. */
  lemma TruncateKeepsPrefix(d: string)
    ensures |d| <= 100 ==> TruncateDescription(TruncateDescription(d)) == TruncateDescription(d)
    ensures |d| > 100 ==> |TruncateDescription(d)| == 103 && TruncateDescription(d)[..100] == d[..100]
  {
  }

  /** Each of the four status labels has its own colour; gray is shared
      with any other text. */
  lemma StatusColorsDistinct()
    ensures StatusColor("未着手") == Gray && StatusColor("進行中") == Blue
    ensures StatusColor("レビュー待ち") == Yellow && StatusColor("完了") == Green
    ensures Gray != Blue && Gray != Yellow && Gray != Green && Blue != Yellow && Blue != Green && Yellow != Green
  {
  }

  /** Each status label gets the colour of its column; any text that names
      no status is gray. */
  lemma StatusColorOfLabel(s: Status, text: string)
    ensures StatusColor(StatusLabel(s)) == match s
      case NotStarted => Gray
      case InProgress => Blue
      case AwaitingReview => Yellow
      case Completed => Green
    ensures ParseStatus(text).None? ==> StatusColor(text) == Gray
  {
  }
}
