/**
 * The per-day time store that `saveTimeLog` in devtrackr-plugin/src/extension.ts keeps in
 * time_data.json: date -> { files, folders, languages }, each a map from a key (full file path,
 * full folder path, language id) to seconds. The model holds the whole document in memory;
 * reading and rewriting the file around each update is left out.
 */
module TimeLog {
  import opened Wrappers

  datatype TimeData = TimeData(files: map<string, int>, folders: map<string, int>, languages: map<string, int>)

  type DailyStats = map<string, TimeData>

  /** The entry created for a date seen for the first time. */
  const EmptyDay := TimeData(map[], map[], map[])

  /** `m[key] || 0`: the stored seconds, an absent key reading as 0. */
  function Get(m: map<string, int>, key: string): int
  {
    if key in m then m[key] else 0
  }

  /** The day's entry, an absent date reading as the empty entry. */
  function Day(data: DailyStats, date: string): TimeData
  {
    if date in data then data[date] else EmptyDay
  }

  /** `m[key] = (m[key] || 0) + duration`. */
  function Add(m: map<string, int>, key: string, duration: int): (r: map<string, int>)
    ensures r.Keys == m.Keys + {key}
    ensures Get(r, key) == Get(m, key) + duration
    ensures forall k :: k in m && k != key ==> r[k] == m[k]
  {
    m[key := Get(m, key) + duration]
  }

  /**
   * `saveTimeLog(language, file, folder, duration)` on the date `date`: the date's entry is created
   * when missing, then `duration` is added to the language, to the file only when `file` is truthy
   * and to the folder only when `folder` is truthy.
   */
  function SaveTimeLog(data: DailyStats, date: string, language: string,
                       file: Option<string>, folder: Option<string>, duration: int): (r: DailyStats)
    ensures r.Keys == data.Keys + {date}
    ensures forall d :: d in data && d != date ==> r[d] == data[d]
    ensures Get(r[date].languages, language) == Get(Day(data, date).languages, language) + duration
    ensures r[date].languages.Keys == Day(data, date).languages.Keys + {language}
    ensures Truthy(file) ==> r[date].files.Keys == Day(data, date).files.Keys + {file.value}
    ensures Truthy(folder) ==> r[date].folders.Keys == Day(data, date).folders.Keys + {folder.value}
    ensures Truthy(file) ==> Get(r[date].files, file.value) == Get(Day(data, date).files, file.value) + duration
    ensures !Truthy(file) ==> r[date].files == Day(data, date).files
    ensures Truthy(folder) ==> Get(r[date].folders, folder.value) == Get(Day(data, date).folders, folder.value) + duration
    ensures !Truthy(folder) ==> r[date].folders == Day(data, date).folders
  {
    data[date := AddToDay(Day(data, date), language, file, folder, duration)]
  }

  /** The in-place updates of one day's entry made by `saveTimeLog`. */
  function AddToDay(day: TimeData, language: string, file: Option<string>, folder: Option<string>, duration: int): TimeData
  {
    TimeData(if Truthy(file) then Add(day.files, file.value, duration) else day.files,
             if Truthy(folder) then Add(day.folders, folder.value, duration) else day.folders,
             Add(day.languages, language, duration))
  }

  /** Every total stored in `m` is still there in `m'`, and no smaller. */
  ghost predicate MapGrows(m: map<string, int>, m': map<string, int>)
  {
    forall k :: k in m ==> k in m' && m[k] <= m'[k]
  }

  /** Every date, file, folder and language total of `data` survives in `data'` and does not decrease. */
  ghost predicate StoreGrows(data: DailyStats, data': DailyStats)
  {
    forall d :: d in data ==>
      d in data' &&
      MapGrows(data[d].files, data'[d].files) &&
      MapGrows(data[d].folders, data'[d].folders) &&
      MapGrows(data[d].languages, data'[d].languages)
  }

  /** A save changes only the keys it names: no other date, file, folder or language. */
  lemma SaveTouchesOnlyItsKeys(data: DailyStats, date: string, language: string,
                               file: Option<string>, folder: Option<string>, duration: int)
    ensures var r := SaveTimeLog(data, date, language, file, folder, duration);
      && (forall k :: k != language ==> Get(r[date].languages, k) == Get(Day(data, date).languages, k))
      && (forall k :: !(Truthy(file) && k == file.value) ==> Get(r[date].files, k) == Get(Day(data, date).files, k))
      && (forall k :: !(Truthy(folder) && k == folder.value) ==> Get(r[date].folders, k) == Get(Day(data, date).folders, k))
  {
  }

  /** With a non-negative duration every stored total is non-decreasing. */
  lemma SaveIsMonotone(data: DailyStats, date: string, language: string,
                       file: Option<string>, folder: Option<string>, duration: int)
    requires duration >= 0
    ensures StoreGrows(data, SaveTimeLog(data, date, language, file, folder, duration))
  {
  }

  /**
   * Merge on write: two saves of the same attribution add up, and the language appears once
   * (as one key) however often it is saved.
   */
  lemma SavesAccumulate(data: DailyStats, date: string, language: string, file: string, folder: string, d1: int, d2: int)
    requires file != "" && folder != "" && date !in data
    ensures var r := SaveTimeLog(SaveTimeLog(data, date, language, Some(file), Some(folder), d1),
                                 date, language, Some(file), Some(folder), d2);
      && r[date].languages == map[language := d1 + d2]
      && r[date].files == map[file := d1 + d2]
      && r[date].folders == map[folder := d1 + d2]
  {
  }

  /** Two additions to one map commute. */
  lemma AddCommutes(m: map<string, int>, k1: string, d1: int, k2: string, d2: int)
    ensures Add(Add(m, k1, d1), k2, d2) == Add(Add(m, k2, d2), k1, d1)
  {
    if k1 == k2 {
      assert Get(Add(m, k1, d1), k2) + d2 == Get(Add(m, k2, d2), k1) + d1;
    }
  }

  lemma AddToDayCommutes(day: TimeData, language1: string, file1: Option<string>, folder1: Option<string>, d1: int,
                         language2: string, file2: Option<string>, folder2: Option<string>, d2: int)
    ensures AddToDay(AddToDay(day, language1, file1, folder1, d1), language2, file2, folder2, d2)
         == AddToDay(AddToDay(day, language2, file2, folder2, d2), language1, file1, folder1, d1)
  {
    AddCommutes(day.languages, language1, d1, language2, d2);
    if Truthy(file1) && Truthy(file2) {
      AddCommutes(day.files, file1.value, d1, file2.value, d2);
    }
    if Truthy(folder1) && Truthy(folder2) {
      AddCommutes(day.folders, folder1.value, d1, folder2.value, d2);
    }
  }

  /** The order in which two saves reach the store does not matter. */
  lemma SavesCommute(data: DailyStats,
                     date1: string, language1: string, file1: Option<string>, folder1: Option<string>, d1: int,
                     date2: string, language2: string, file2: Option<string>, folder2: Option<string>, d2: int)
    ensures SaveTimeLog(SaveTimeLog(data, date1, language1, file1, folder1, d1), date2, language2, file2, folder2, d2)
         == SaveTimeLog(SaveTimeLog(data, date2, language2, file2, folder2, d2), date1, language1, file1, folder1, d1)
  {
    if date1 == date2 {
      AddToDayCommutes(Day(data, date1), language1, file1, folder1, d1, language2, file2, folder2, d2);
    }
  }
}
