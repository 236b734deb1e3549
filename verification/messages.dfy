/**
 * Every fixed message the modelled code can show or return, one constructor
 * each, with its exact wording in `Text()`. A message that comes from the
 * backend (an envelope's `message`, an `ApiError`'s message) is `Server`.
 */
module Messages {
  /** Type names as the schema library's default messages spell them. */
  datatype TypeName = StringType | NumberType | NaNType | NullType | BooleanType
                    | ArrayType | ObjectType | IntegerType | FloatType
  {
    function Name(): string {
      match this
      case StringType => "string"
      case NumberType => "number"
      case NaNType => "nan"
      case NullType => "null"
      case BooleanType => "boolean"
      case ArrayType => "array"
      case ObjectType => "object"
      case IntegerType => "integer"
      case FloatType => "float"
    }
  }

  datatype Message =
    // defaults of the schema library
    | Required
    | Expected(expected: TypeName, received: TypeName)
    // shared by several actions
    | InputRecheck
    | ConnectionFallback
    | PasswordRequired
    | QuantityAtLeastOne
    // login
    | LoginIdRequired
    | LoginRecheck
    // new project
    | VersionRequired
    | RegionRequired
    | ProjectNameRequired
    | DateRequired
    | DateFormat
    | EndBeforeStart
    // signup
    | SignupLoginIdRequired
    | PasswordCheckRequired
    | UsernameRequired
    | UsernameTooLong
    | PasswordMismatch
    | SignupFallback
    // material inbound
    | DrawingNumberRequired
    | ItemNameRequired
    | MaterialsRequired
    | MaterialsMalformed
    | InboundRegistered
    | InboundFallback
    // rail quantity updates
    | StraightFallback
    | BranchFallback
    // access control and the project list
    | LoginRequiredNotice
    | NoPermissionNotice
    | ProjectListFallback
    // text chosen by the backend
    | Server(text: string)
  {
    function Text(): string {
      match this
      case Required => "Required"
      case Expected(e, r) => "Expected " + e.Name() + ", received " + r.Name()
      case InputRecheck => "입력값을 다시 확인해주세요."
      case ConnectionFallback => "서버 연결 상태가 좋지 않습니다. 다시 시도해 주세요."
      case PasswordRequired => "비밀번호를 입력해 주세요."
      case QuantityAtLeastOne => "수량은 1 이상이어야 합니다."
      case LoginIdRequired => "아이디를 입력해 주세요."
      case LoginRecheck => "로그인 정보를 다시 확인해주세요."
      case VersionRequired => "Version 정보를 입력해 주세요."
      case RegionRequired => "프로젝트 지역은 필수 입니다."
      case ProjectNameRequired => "프로젝트 명칭은 필수 입니다."
      case DateRequired => "날짜를 선택해주세요."
      case DateFormat => "날짜 형식이 올바르지 않습니다 (YYYY-MM-DD)."
      case EndBeforeStart => "종료일은 시작일보다 빠를 수 없습니다."
      case SignupLoginIdRequired => "로그인 아이디를 입력해 주세요."
      case PasswordCheckRequired => "비밀번호 확인을 입력해 주세요."
      case UsernameRequired => "이름을 입력해 주세요."
      case UsernameTooLong => "이름은 10자리 미만이어야 합니다."
      case PasswordMismatch => "비밀번호가 일치하지 않습니다."
      case SignupFallback => "회원가입 실패, 서버 상태가 좋지 않습니다."
      case DrawingNumberRequired => "도면 번호는 필수 입력입니다."
      case ItemNameRequired => "품명은 필수 입력입니다."
      case MaterialsRequired => "최소 하나 이상의 자재 정보를 추가해주세요."
      case MaterialsMalformed => "자재 데이터 형식이 올바르지 않습니다."
      case InboundRegistered => "자재 입고가 성공적으로 등록되었습니다."
      case InboundFallback => "자재 등록 실패. 서버 상태를 점검해주세요."
      case StraightFallback => "서버 오류로 업데이트 실패"
      case BranchFallback => "서버 오류로 분기레일 업데이트 실패"
      case LoginRequiredNotice => "로그인이 필요한 서비스입니다."
      case NoPermissionNotice => "이 페이지에 접근할 권한이 없습니다."
      case ProjectListFallback => "프로젝트 목록 조회 실패. 서버 상태가 좋지 않습니다."
      case Server(t) => t
    }
  }
}
