/**
 * DailyGreetingHelper.swift: the home screen's message for the day of the
 * week. The date text comes from the platform's formatter and is left out.
 */
module Greeting {

  /**
   * `messageForWeekday`: the calendar's weekday number, 1 for Sunday to 7
   * for Saturday, gives that day's message; any other number gives the
   * general one.
   */
  function MessageForWeekday(weekday: int): (message: string)
    ensures 1 <= weekday <= 7 ==> message != DefaultMessage
    ensures !(1 <= weekday <= 7) ==> message == DefaultMessage
  {
    match weekday
    case 1 => "편안한 일요일, 가볍게 몸을 움직여보세요 ☀️"
    case 2 => "일주일의 시작, 활기차게 달려볼까요? 💪"
    case 3 => "화이팅 넘치는 화요일이에요! 🔥"
    case 4 => "벌써 수요일, 오늘도 한 걸음씩! 👟"
    case 5 => "목요일, 주말이 코앞이에요! 🎯"
    case 6 => "불금엔 땀 흘리며 스트레스 날려요! 🎉"
    case 7 => "토요일엔 여유롭게 러닝 어때요? 🌿"
    case _ => DefaultMessage
  }

  const DefaultMessage: string := "오늘도 건강한 하루 보내세요! 🏃‍♂️"

  /** Every day of the week has its own message. */
  lemma WeekdayMessagesDistinct(a: int, b: int)
    requires 1 <= a <= 7 && 1 <= b <= 7 && a != b
    ensures MessageForWeekday(a) != MessageForWeekday(b)
  {
  }
}
