/**
 * The operator notifications: the guard of `send_admin_message` and the
 * short outcome texts sent after each publication attempt.
 */
module Notify {
  import opened Wrappers
  import opened Text

  /**
   * What `send_admin_message` returns. Nothing is sent when no admin id is
   * configured; otherwise the send is attempted, and `delivered` is its
   * outcome (a failed send is logged and reported as `false`, never raised).
   */
  function SendAdminMessage(adminId: Option<string>, delivered: bool): (sent: bool)
    ensures sent ==> NonEmpty(adminId)
    ensures !NonEmpty(adminId) ==> !sent
    ensures NonEmpty(adminId) ==> sent == delivered
  {
    if !NonEmpty(adminId) then false else delivered
  }

  /** The two publication paths, whose notices differ in wording. */
  datatype PostPath = GroupPath | SinglePath

  const SuccessMark: char := '✅'
  const FailureMark: char := '❌'

  /** Python's `f"{x}"` of an optional string: the value, or `None`. */
  function PyStr(s: Option<string>): string {
    match s
    case Some(v) => v
    case None => "None"
  }

  function SuccessHead(path: PostPath): string {
    match path
    case GroupPath => [SuccessMark] + " Новый пост с медиа-группой успешно опубликован на сайте!\nЗаголовок: "
    case SinglePath => [SuccessMark] + " Новый пост с канала успешно опубликован на сайте!\nЗаголовок: "
  }

  function FailureHead(path: PostPath): string {
    match path
    case GroupPath => [FailureMark] + " Не удалось опубликовать пост с медиа-группой на сайт.\nЗаголовок: "
    case SinglePath => [FailureMark] + " Не удалось опубликовать пост с канала на сайт.\nЗаголовок: "
  }

  /**
   * The notice sent after `post_to_wordpress` returned `result`: a success
   * text with the title and the article link, or a failure text with the
   * title only.
   */
  function PublishNotice(path: PostPath, title: string, result: (bool, Option<string>)): (notice: string)
    ensures |notice| > 0
    ensures notice[0] == SuccessMark <==> result.0
    ensures notice[0] == FailureMark <==> !result.0
    ensures Contains(notice, title)
    ensures result.0 ==> Contains(notice, PyStr(result.1))
  {
    if result.0 then
      var url := PyStr(result.1);
      ContainsSecondAndLast(SuccessHead(path), title, "\nСсылка: ", url);
      SuccessHead(path) + title + "\nСсылка: " + url
    else
      ContainsSecondAndLast(FailureHead(path), title, "", "");
      assert FailureHead(path) + title + "" + "" == FailureHead(path) + title;
      FailureHead(path) + title
  }
}
