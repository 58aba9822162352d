/**
 * The profile records the two documents and the dashboard read: basic
 * information, careers, skills, educations and projects.
 */
module Profile {
  import Tenure

  /** A skill level as the skills editor stores it: 1, 2 or 3. */
  type Level = l: int | 1 <= l <= 3 witness 2

  datatype BasicInfo = BasicInfo(
    name: string,
    nameEn: string,
    email: string,
    phone: string,
    introduce: string)

  datatype Career = Career(
    id: string,
    company: string,
    position: string,
    startDate: Tenure.DateField,
    endDate: Tenure.DateField,
    current: bool,
    description: string,
    achievements: seq<string>)

  datatype Skill = Skill(id: string, category: string, name: string, level: Level)

  datatype Education = Education(
    id: string,
    school: string,
    major: string,
    degree: string,
    startDate: Tenure.DateField,
    endDate: Tenure.DateField,
    gpa: string)

  datatype Project = Project(
    id: string,
    name: string,
    description: string,
    startDate: Tenure.DateField,
    endDate: Tenure.DateField,
    role: string,
    techStack: seq<string>,
    achievements: seq<string>,
    url: string)

  /** Everything one document is built from. */
  datatype ResumeData = ResumeData(
    basicInfo: BasicInfo,
    careers: seq<Career>,
    skills: seq<Skill>,
    educations: seq<Education>,
    projects: seq<Project>)
}
