/** Shared data of the application: health conditions, flags, scan records
    and users, as the pages and contexts exchange them. */
module Types {

  /** An optional value (a JavaScript `T | null` or an absent property). */
  datatype Option<+T> = None | Some(value: T)

  /** A nutrient profile: nutrient name to amount. A name that is not a key
      stands for a JavaScript `undefined` property, which is NOT the same as
      an amount of zero. */
  type Profile = map<string, real>

  /** The closed set of health conditions a user can declare. */
  datatype Condition =
    | Normal
    | Diabetic
    | Hypertensive
    | WeightLoss
    | PregnantNursing
    | CholesterolWatch

  /** Traffic-light level of a health flag produced by the advice engine. */
  datatype Level = Green | Yellow | Red

  datatype Flag = Flag(level: Level, message: string)

  /** One analysed meal, as built by the camera page and queued while in
      offline mode. */
  datatype ScanRecord = ScanRecord(
    id: string,
    userId: string,
    dishName: string,
    confidence: real,
    imageUrl: string,
    nutrients: Profile,
    healthFlags: seq<Flag>,
    recommendations: seq<string>,
    healthCondition: Condition,
    timestamp: string)

  datatype Role = UserRole | Clinician | Admin

  datatype User = User(
    id: string,
    email: string,
    name: string,
    role: Role,
    avatar: Option<string>,
    healthCondition: Condition,
    createdAt: string,
    lastLogin: string)
}
