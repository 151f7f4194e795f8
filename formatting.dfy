/**
 * Text the repository composes: durations in hours and minutes, the push
 * text for a new booking, the SMS template choice, the OneSignal request
 * fields and the OR-joined tag filter naming the recipients.
 */
module Formatting {
  import opened Wrappers
  import opened PhpValues
  import opened Domain

  /** The hours of `convertToHoursMins`, `%02d` formatted. */
  function HoursPart(time: nat): string {
    Pad2(time / 60)
  }

  /** The minutes of `convertToHoursMins`, `%02d` formatted. */
  function MinutesPart(time: nat): string {
    Pad2(time % 60)
  }

  /** `convertToHoursMins` with its default format `'%02dh %02dmin'`. */
  function ConvertToHoursMins(time: int): (s: string)
    ensures time < 60 ==> s == IntToString(time) + "min"
    ensures time == 60 ==> s == "1h"
    ensures time > 60 ==> s == HoursPart(time) + "h " + MinutesPart(time) + "min"
  {
    if time < 60 then IntToString(time) + "min"
    else if time == 60 then "1h"
    else Pad2(time / 60) + "h " + Pad2(time % 60) + "min"
  }

  /** Above an hour, the two numbers printed read back as hours and minutes that add up to the duration. */
  lemma HoursMinsDenotes(time: int)
    requires time > 60
    ensures ParseDigits(HoursPart(time)) * 60 + ParseDigits(MinutesPart(time)) == time
    ensures |MinutesPart(time)| == 2 && ParseDigits(MinutesPart(time)) < 60
    ensures ParseDigits(HoursPart(time)) >= 1
  {
    Pad2Value(time / 60);
    Pad2Value(time % 60);
  }

  /** Below an hour the duration is printed as a plain number of minutes, and it reads back. */
  lemma MinutesOnlyDenotes(time: int)
    requires 0 <= time < 60
    ensures ConvertToHoursMins(time) == NatToString(time) + "min"
    ensures ParseDigits(NatToString(time)) == time
  {
    ParseNatToString(time);
  }

  predicate EndsWith(s: string, suffix: string) {
    |suffix| <= |s| && s[|s| - |suffix|..] == suffix
  }

  /** `prepareNotificationMessage`: the push text announcing a new booking to translators. */
  function NotificationMessage(immediate: string, language: string, duration: int, due: string): (text: string)
    ensures immediate == "no" ==> "Ny bokning för " <= text && EndsWith(text, " " + due)
    ensures immediate != "no" ==> "Ny akutbokning för " <= text && EndsWith(text, "min")
  {
    if immediate == "no" then "Ny bokning för " + language + "tolk " + IntToString(duration) + "min " + due
    else "Ny akutbokning för " + language + "tolk " + IntToString(duration) + "min"
  }

  datatype SmsTemplate = PhoneJobSms | PhysicalJobSms

  /** The template choice in `prepareSMSMessage`. */
  function SmsTemplateFor(physicalType: string, phoneType: string): (t: SmsTemplate)
    ensures t == PhysicalJobSms <==> physicalType == "yes" && phoneType == "no"
  {
    if physicalType == "yes" && phoneType == "no" then PhysicalJobSms else PhoneJobSms
  }

  /** The town interpolated into the physical-job SMS: the job's own city if truthy, else the customer's. */
  function SmsTown(jobCity: Option<string>, customerCity: string): (town: string)
    ensures Truthy(jobCity) ==> town == jobCity.value
    ensures !Truthy(jobCity) ==> town == customerCity
    ensures Truthy(Some(town)) <==> Truthy(jobCity) || Truthy(Some(customerCity))
  {
    if Truthy(jobCity) then jobCity.value else customerCity
  }

  /**
   * The SMS `prepareSMSMessage` composes, without the date and time texts:
   * only the physical-job template names a town.
   */
  datatype SmsMessage =
    | PhoneJobMessage(jobId: int, duration: string)
    | PhysicalJobMessage(jobId: int, duration: string, town: string)

  /** `prepareSMSMessage`: `jobCity` is the job's `city` column, `posterCity` the customer's. */
  function PrepareSmsMessage(job: Job, jobCity: Option<string>, posterCity: string): (m: SmsMessage)
    ensures m.jobId == job.id && m.duration == ConvertToHoursMins(job.duration)
    ensures m.PhysicalJobMessage? <==> SmsTemplateFor(job.customerPhysicalType, job.customerPhoneType) == PhysicalJobSms
    ensures m.PhysicalJobMessage? ==> m.town == SmsTown(jobCity, posterCity)
  {
    var duration := ConvertToHoursMins(job.duration);
    match SmsTemplateFor(job.customerPhysicalType, job.customerPhoneType)
    case PhysicalJobSms => PhysicalJobMessage(job.id, duration, SmsTown(jobCity, posterCity))
    case PhoneJobSms => PhoneJobMessage(job.id, duration)
  }

  /** The `$data` keys `preparePushFields` reads (the whole array is forwarded as the payload). */
  datatype PushData = PushData(notificationType: string, immediate: string)

  /** The OneSignal request body. `title` and `contents` hold the `en` text. */
  datatype PushFields = PushFields(
    appId: string,
    tags: string,
    data: PushData,
    title: string,
    contents: string,
    iosBadgeType: string,
    iosBadgeCount: int,
    androidSound: string,
    iosSound: string,
    sendAfter: Option<string>)

  /** `preparePushFields`; `nextBusinessTime` is what the date helper returns for the next business hour. */
  function PreparePushFields(data: PushData, text: string, userTags: string, appId: string,
                             isNeedDelay: bool, nextBusinessTime: string): (f: PushFields)
    ensures f.sendAfter.Some? <==> isNeedDelay
    ensures f.sendAfter.Some? ==> f.sendAfter.value == nextBusinessTime
    ensures f.appId == appId && f.tags == userTags && f.data == data && f.contents == text
    ensures f.title == "DigitalTolk" && f.iosBadgeType == "Increase" && f.iosBadgeCount == 1
  {
    var sound :=
      if data.notificationType == "suitable_job" then
        (if data.immediate == "no" then "normal_booking" else "emergency_booking")
      else "default";
    PushFields(appId, userTags, data, "DigitalTolk", text, "Increase", 1,
               sound, if sound == "default" then "default" else sound + ".mp3",
               if isNeedDelay then Some(nextBusinessTime) else None)
  }

  /** Sound selection: only suitable-job pushes get a booking sound; emergency unless `immediate` is exactly `"no"`. */
  lemma PushSound(data: PushData, text: string, userTags: string, appId: string, isNeedDelay: bool, next: string)
    ensures var f := PreparePushFields(data, text, userTags, appId, isNeedDelay, next);
            && (f.androidSound == "default" <==> data.notificationType != "suitable_job")
            && (f.androidSound == "normal_booking" <==> data.notificationType == "suitable_job" && data.immediate == "no")
            && (f.androidSound == "emergency_booking" <==> data.notificationType == "suitable_job" && data.immediate != "no")
            && (f.iosSound == if f.androidSound == "default" then "default" else f.androidSound + ".mp3")
  {
  }

  /** One OneSignal tag filter: the user's e-mail, lower-cased. */
  function Tag(email: string): string {
    "{\"key\": \"email\", \"relation\": \"=\", \"value\": \"" + Lower(email) + "\"}"
  }

  const OrSeparator: string := ",{\"operator\": \"OR\"},"

  function Tags(emails: seq<string>): (tags: seq<string>)
    ensures |tags| == |emails|
    ensures forall i :: 0 <= i < |emails| ==> tags[i] == Tag(emails[i])
  {
    seq(|emails|, i requires 0 <= i < |emails| => Tag(emails[i]))
  }

  /** The parts separated by `sep`. */
  function Join(parts: seq<string>, sep: string): string
    decreases |parts|
  {
    if parts == [] then ""
    else if |parts| == 1 then parts[0]
    else parts[0] + sep + Join(parts[1..], sep)
  }

  lemma {:induction false} JoinAppend(parts: seq<string>, p: string, sep: string)
    requires parts != []
    ensures Join(parts + [p], sep) == Join(parts, sep) + sep + p
    decreases |parts|
  {
    if |parts| == 1 {
      assert (parts + [p])[1..] == [p];
    } else {
      assert (parts + [p])[1..] == parts[1..] + [p];
      JoinAppend(parts[1..], p, sep);
    }
  }

  /** The tags of one more e-mail extend the tags of the prefix by one. */
  lemma TagsSnoc(emails: seq<string>, i: nat)
    requires i < |emails|
    ensures Tags(emails[..i + 1]) == Tags(emails[..i]) + [Tag(emails[i])]
  {
  }

  /** `getUserTagsStringFromArray`: a bracketed list of the users' tags, OR-joined. */
  method GetUserTagsString(emails: seq<string>) returns (userTags: string)
    ensures userTags == "[" + Join(Tags(emails), OrSeparator) + "]"
    ensures emails == [] <==> userTags == "[]"
  {
    userTags := "[";
    var first := true;
    var i := 0;
    while i < |emails|
      invariant 0 <= i <= |emails|
      invariant first <==> i == 0
      invariant userTags == "[" + Join(Tags(emails[..i]), OrSeparator)
      invariant i > 0 ==> |userTags| > 1
    {
      ghost var before := Tags(emails[..i]);
      var tag := Tag(emails[i]);
      TagsSnoc(emails, i);
      if !first {
        userTags := userTags + OrSeparator;
        JoinAppend(before, tag, OrSeparator);
      } else {
        assert before + [tag] == [tag];
      }
      first := false;
      userTags := userTags + tag;
      i := i + 1;
    }
    userTags := userTags + "]";
    assert emails[..i] == emails;
  }
}
