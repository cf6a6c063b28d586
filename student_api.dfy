/**
 * `src/lib/student-api.ts`: thin wrappers over the student endpoints. The
 * logic of interest is its own, lenient copy of the list unwrapper, the
 * default of the unread counter, and the two profile calls that turn a
 * failure into null. A wrapper without a `catch` lets a failure through,
 * which `Response` models as `Failed` on both sides.
 */
module StudentApi {

  import opened Common
  import Learning
  import Courses

  /**
   * `extractList` of student-api.ts: a bare array as is; for an object with a
   * `results` key, that value when it is truthy and the empty list otherwise;
   * anything else is empty.
   */
  function ExtractList<T>(data: Data<T>): (r: Data<T>)
    ensures data.Arr? ==> r == data
    ensures data.Obj? && data.results.Some? ==>
              r == (if Truthy(data.results.value) then data.results.value else Arr([]))
    ensures !data.Arr? && !(data.Obj? && data.results.Some?) ==> r == Arr([])
  {
    match data
    case Arr(_) => data
    case Obj(Some(results)) => if Truthy(results) then results else Arr([])
    case _ => Arr([])
  }

  /**
   * The list endpoints (`getCourses`, `getMyCourses`, `getQuizAttempts`,
   * `getNotifications`, `getBookmarks`, `getTracking`): the unwrapped body,
   * and a failure passed on.
   */
  function ListEndpoint<T>(resp: Response<Data<T>>): (r: Response<Data<T>>)
    ensures resp.Failed? <==> r.Failed?
    ensures resp.Ok? ==> r.data == ExtractList(resp.data)
  {
    match resp
    case Ok(data) => Ok(ExtractList(data))
    case Failed => Failed
  }

  /**
   * The three copies of the unwrapper agree on the two shapes they are
   * written for: a bare array and an object whose `results` is an array.
   */
  lemma ExtractListCopiesAgree<T>(xs: seq<T>)
    ensures Learning.ExtractList(Arr(xs)) == xs
    ensures Courses.ExtractList(Arr(xs)) == Arr(xs) && ExtractList(Arr(xs)) == Arr(xs)
    ensures Learning.ExtractList(Obj(Some(Arr(xs)))) == xs
    ensures Courses.ExtractList(Obj(Some(Arr(xs)))) == Arr(xs)
    ensures ExtractList(Obj(Some(Arr(xs)))) == Arr(xs)
  {
  }

  /**
   * Whenever the courses or the student-api copy yields an array, it is the
   * array the learning copy yields: the copies differ only where the two
   * later ones hand back something that is not a list at all.
   */
  lemma ExtractListArraysAgree<T>(data: Data<T>)
    ensures Courses.ExtractList(data).Arr? ==> Courses.ExtractList(data).items == Learning.ExtractList(data)
    ensures ExtractList(data).Arr? ==> ExtractList(data).items == Learning.ExtractList(data)
  {
  }

  /**
   * Where the copies part: a `results` of null comes back raw (null) from the
   * courses copy but as the empty list from the other two; a truthy
   * non-array `results` (a number, say) comes back raw from both the courses
   * and the student-api copy, and as the empty list from the learning copy.
   */
  lemma ExtractListCopiesDiverge<T>()
    ensures Courses.ExtractList<T>(Obj(Some(Null))) == Null
    ensures ExtractList<T>(Obj(Some(Null))) == Arr([]) && Learning.ExtractList<T>(Obj(Some(Null))) == []
    ensures Courses.ExtractList<T>(Obj(Some(Prim(true)))) == Prim(true)
    ensures ExtractList<T>(Obj(Some(Prim(true)))) == Prim(true)
    ensures Learning.ExtractList<T>(Obj(Some(Prim(true)))) == []
  {
  }

  /**
   * `getUnreadNotificationCount`: `unreadCount` is the `unread_count` member
   * of the body (`None` when the body is null or lacks it). A missing or zero
   * count reads as 0; a failed call is passed on.
   */
  function GetUnreadNotificationCount(resp: Response<Option<int>>): (r: Response<int>)
    ensures resp.Failed? <==> r.Failed?
    ensures resp.Ok? && resp.data.None? ==> r == Ok(0)
    ensures resp.Ok? && resp.data.Some? ==> r == Ok(resp.data.value)
  {
    match resp
    case Failed => Failed
    case Ok(count) => Ok(if count.Some? && count.value != 0 then count.value else 0)
  }

  /**
   * `getMyProfile` and `getGamification`: the body on success and null on any
   * failure, so neither call ever fails.
   */
  function OrNull<P>(resp: Response<P>): (r: Option<P>)
    ensures resp.Failed? <==> r.None?
    ensures resp.Ok? ==> r == Some(resp.data)
  {
    match resp
    case Ok(body) => Some(body)
    case Failed => None
  }
}
